/**
 * The wizard of ui_composants.py with the widgets taken away: the session state it keeps
 * between reruns and what each button and form does to it.
 *
 * The session is a `Session` object whose fields are the eight session keys, each `None`
 * while the key is absent. Every handler is a method whose new state is a pure transition
 * function of the old state and of what the widgets returned; the properties of the wizard
 * are lemmas about those functions. A widget value is a parameter: a selectbox gives an
 * index into its list, a checkbox a boolean, a text field a string.
 */
module Wizard {
  import opened Wrappers
  import opened Text
  import opened Prompts
  import opened Config
  import opened ReplyParser
  import opened Generator
  import opened ReplyRoundTrip

  /** The session keys, each `None` while absent from the session. */
  datatype State = State(
    etape: Option<int>,
    colonnes: Option<seq<Column>>,
    questionsIa: Option<string>,
    reponsesIa: Option<string>,
    fichiersGeneres: Option<seq<GeneratedFile>>,
    reponseBrute: Option<string>,
    contexte: Option<Context>,
    modeFullIa: Option<bool>)

  /** A fresh session, before `init_session` has run. */
  const Cleared := State(None, None, None, None, None, None, None, None)

  /** The defaults of `init_session`. */
  const Defaults := State(Some(1), Some([]), Some(""), Some(""), Some([]), Some(""), Some(EmptyContext), Some(false))

  /** Every key is present: what each page of the wizard relies on. */
  predicate Ready(st: State) {
    st.etape.Some? && st.colonnes.Some? && st.questionsIa.Some? && st.reponsesIa.Some?
    && st.fichiersGeneres.Some? && st.reponseBrute.Some? && st.contexte.Some? && st.modeFullIa.Some?
  }

  /** `init_session`: every absent key gets its default; present keys are kept. */
  function Initialized(st: State): (r: State)
    ensures Ready(r)
  {
    State(
      Some(st.etape.GetOr(1)),
      Some(st.colonnes.GetOr([])),
      Some(st.questionsIa.GetOr("")),
      Some(st.reponsesIa.GetOr("")),
      Some(st.fichiersGeneres.GetOr([])),
      Some(st.reponseBrute.GetOr("")),
      Some(st.contexte.GetOr(EmptyContext)),
      Some(st.modeFullIa.GetOr(false)))
  }

  /** The column types offered for the context's platform, `"BQ"` when none was chosen. */
  function TypesFor(ctx: Context): (types: seq<string>)
    ensures |types| > 0
  {
    if ctx.plateforme.GetOr("BQ") == "BQ" then TypesColonnesBQ else TypesColonnesTD
  }

  // ---------------------------------------------------------------------------
  // Step 1
  // ---------------------------------------------------------------------------

  /** The items of `xs` whose box in `checked` is ticked, in order. */
  function Selected(xs: seq<string>, checked: seq<bool>): seq<string>
    requires |checked| == |xs|
    decreases |xs|
  {
    if xs == [] then []
    else
      var n := |xs| - 1;
      Selected(xs[..n], checked[..n]) + (if checked[n] then [xs[n]] else [])
  }

  /** What the widgets of step 1 returned: selectboxes as indices into their lists. */
  datatype Step1Input = Step1Input(
    domaine: string,
    checked: seq<bool>,
    plateforme: nat,
    description: string,
    source: nat,
    format: nat,
    destination: nat)

  predicate Step1InputOk(in1: Step1Input) {
    |in1.checked| == |Dossiers| && in1.plateforme < |Plateformes| && in1.source < |SourcesDonnees|
    && in1.format < |FormatsFichiers| && in1.destination < |DestinationsExport|
  }

  /**
   * The writes of step 1 to the context: domain, folders, platform and description; the
   * source and file format only with Import ticked, the destination only with Export ticked.
   */
  function Step1Context(ctx: Context, in1: Step1Input): Context
    requires Step1InputOk(in1)
  {
    var ds := Selected(Dossiers, in1.checked);
    var f1 := if "Import" in ds
      then ctx.fields[Source := Str(SourcesDonnees[in1.source])][FormatFichier := Str(FormatsFichiers[in1.format])]
      else ctx.fields;
    var f2 := if "Export" in ds then f1[Destination := Str(DestinationsExport[in1.destination])] else f1;
    ctx.(domaine := Some(in1.domaine), dossiers := Some(ds), plateforme := Some(Plateformes[in1.plateforme]),
         description := Some(in1.description), fields := f2)
  }

  /** The error step 1 shows on Next, if any: the required texts first, then the folders. */
  function Step1Error(ctx: Context): Option<string> {
    if ctx.domaine.GetOr("") == "" || ctx.description.GetOr("") == "" then Some("Domaine et description sont obligatoires.")
    else if ctx.dossiers.GetOr([]) == [] then Some("Sélectionnez au moins un dossier.")
    else None
  }

  /** Next on step 1: to step 2 when there is no error, otherwise nothing changes. */
  function Step1Next(st: State): State
    requires Ready(st)
  {
    if Step1Error(st.contexte.value).None? then st.(etape := Some(2)) else st
  }

  // ---------------------------------------------------------------------------
  // Step 2
  // ---------------------------------------------------------------------------

  /** The column the add button appends: no name, the first type of the platform, nullable. */
  function NewColumn(types: seq<string>): Column
    requires |types| > 0
  {
    Column("", types[0], Some(true))
  }

  /** Each string stripped, in order. */
  function StripEach(xs: seq<string>): (r: seq<string>)
    ensures |r| == |xs| && forall i :: 0 <= i < |xs| ==> r[i] == Strip(xs[i])
  {
    if xs == [] then [] else [Strip(xs[0])] + StripEach(xs[1..])
  }

  /** The fields of one pasted line: its comma-separated parts, each stripped. */
  function Fields(line: string): (parts: seq<string>)
    ensures |parts| >= 1
  {
    StripEach(Split(line, ','))
  }

  /**
   * The column one pasted line gives: the first field names it; the second field is its
   * type when the platform offers that type, and the first type otherwise. A line with
   * an empty name gives none.
   */
  function BulkLine(line: string, types: seq<string>): Option<Column>
    requires |types| > 0
  {
    var parts := Fields(line);
    var nom := parts[0];
    var typ := if |parts| > 1 && parts[1] in types then parts[1] else types[0];
    if nom != "" then Some(Column(nom, typ, Some(true))) else None
  }

  /** The columns the pasted lines give, in order. */
  function BulkColumns(lines: seq<string>, types: seq<string>): seq<Column>
    requires |types| > 0
    decreases |lines|
  {
    if lines == [] then []
    else
      var n := |lines| - 1;
      BulkColumns(lines[..n], types) + Listed(BulkLine(lines[n], types))
  }

  /** The column of an option, as a list of at most one. */
  function Listed(c: Option<Column>): seq<Column> {
    if c.Some? then [c.value] else []
  }

  lemma {:induction false} BulkColumnsAppend(lines: seq<string>, line: string, types: seq<string>)
    requires |types| > 0
    ensures BulkColumns(lines + [line], types) == BulkColumns(lines, types) + Listed(BulkLine(line, types))
  {
    assert (lines + [line])[..|lines|] == lines;
  }

  /** The text the bulk import reads, as the lines it loops over. */
  function BulkLines(bulk: string): seq<string> {
    SplitLines(Strip(bulk))
  }

  /** The columns whose index is not marked for deletion, in order. */
  function Unmarked(cols: seq<Column>, marked: set<nat>): seq<Column>
    decreases |cols|
  {
    if cols == [] then []
    else
      var n := |cols| - 1;
      Unmarked(cols[..n], marked) + (if n in marked then [] else [cols[n]])
  }

  /** The columns that have a name once stripped, in order. */
  function Named(cols: seq<Column>): seq<Column>
    decreases |cols|
  {
    if cols == [] then []
    else
      var n := |cols| - 1;
      Named(cols[..n]) + (if Strip(cols[n].nom) != "" then [cols[n]] else [])
  }

  /** Next on step 2: the named columns become the session's columns and the context's, and step 3 opens. */
  function Step2Next(st: State): State
    requires Ready(st)
  {
    var valid := Named(st.colonnes.value);
    st.(colonnes := Some(valid), contexte := Some(st.contexte.value.(colonnes := Some(valid))), etape := Some(3))
  }

  // ---------------------------------------------------------------------------
  // Step 3
  // ---------------------------------------------------------------------------

  /** What the widgets of step 3 returned. */
  datatype Step3Input = Step3Input(
    masqueFichier: string, repIn: string, repWork: string, repArch: string,
    separateur: string, entete: nat, uriSource: string, nomTableStaging: string,
    nomTableSocle: string, modeChargement: nat, clePrimaire: string,
    repExport: string, nomFichierExport: string, uriDestination: string,
    dureePurgeArchive: int, dureePurgeExport: int, instructions: string)

  predicate Step3InputOk(in3: Step3Input) {
    in3.entete < 2 && in3.modeChargement < |ModesChargement|
  }

  /** The two choices of the header question. */
  const OuiNon: seq<string> := ["Oui", "Non"]

  /** The load modes that ask for a primary key. */
  predicate NeedsKey(mode: string) {
    mode == "UPSERT" || mode == "UPDATE"
  }

  /** The writes of the Import section. */
  function ImportWrites(f: map<Key, Value>, in3: Step3Input): map<Key, Value>
    requires Step3InputOk(in3)
  {
    var g := f[MasqueFichier := Str(in3.masqueFichier)][RepIn := Str(in3.repIn)][RepWork := Str(in3.repWork)]
              [RepArch := Str(in3.repArch)][Separateur := Str(in3.separateur)][Entete := Str(OuiNon[in3.entete])];
    var h := if Source in f && f[Source] == Str(CloudStorage) then g[UriSource := Str(in3.uriSource)] else g;
    h[NomTableStaging := Str(in3.nomTableStaging)]
  }

  /** The writes of the Alimentation section; the key is asked for only by the modes that merge. */
  function AlimentationWrites(f: map<Key, Value>, in3: Step3Input): map<Key, Value>
    requires Step3InputOk(in3)
  {
    var mode := ModesChargement[in3.modeChargement];
    var g := f[NomTableSocle := Str(in3.nomTableSocle)][ModeChargement := Str(mode)];
    if NeedsKey(mode) then g[ClePrimaire := Str(in3.clePrimaire)] else g
  }

  /** The writes of the Export section. */
  function ExportWrites(f: map<Key, Value>, in3: Step3Input): map<Key, Value> {
    var g := f[RepExport := Str(in3.repExport)][NomFichierExport := Str(in3.nomFichierExport)];
    if Destination in f && f[Destination] == Str(CloudStorage) then g[UriDestination := Str(in3.uriDestination)] else g
  }

  /** The writes of step 3: one section per ticked folder, then the purges and the instructions. */
  function Step3Fields(ctx: Context, in3: Step3Input): map<Key, Value>
    requires Step3InputOk(in3)
  {
    var ds := ctx.dossiers.GetOr([]);
    var f1 := if "Import" in ds then ImportWrites(ctx.fields, in3) else ctx.fields;
    var f2 := if "Alimentation" in ds then AlimentationWrites(f1, in3) else f1;
    var f3 := if "Export" in ds then ExportWrites(f2, in3) else f2;
    f3[DureePurgeArchive := Int(in3.dureePurgeArchive)][DureePurgeExport := Int(in3.dureePurgeExport)]
      [InstructionsSupplementaires := Str(in3.instructions)]
  }

  /** The keys the Import section writes: the URI only when the source is cloud storage. */
  function ImportKeys(f: map<Key, Value>): set<Key> {
    {MasqueFichier, RepIn, RepWork, RepArch, Separateur, Entete, NomTableStaging}
    + (if Source in f && f[Source] == Str(CloudStorage) then {UriSource} else {})
  }

  /** The keys the Alimentation section writes: the primary key only for the modes that merge. */
  function AlimentationKeys(mode: string): set<Key> {
    {NomTableSocle, ModeChargement} + (if NeedsKey(mode) then {ClePrimaire} else {})
  }

  /** The keys the Export section writes: the URI only when the destination is cloud storage. */
  function ExportKeys(f: map<Key, Value>): set<Key> {
    {RepExport, NomFichierExport} + (if Destination in f && f[Destination] == Str(CloudStorage) then {UriDestination} else {})
  }

  /** The keys step 3 writes for a context with these folders, source, destination and load mode. */
  function Step3Keys(ctx: Context, mode: string): set<Key> {
    var ds := ctx.dossiers.GetOr([]);
    (if "Import" in ds then ImportKeys(ctx.fields) else {})
    + (if "Alimentation" in ds then AlimentationKeys(mode) else {})
    + (if "Export" in ds then ExportKeys(ctx.fields) else {})
    + {DureePurgeArchive, DureePurgeExport, InstructionsSupplementaires}
  }

  // ---------------------------------------------------------------------------
  // Step 4
  // ---------------------------------------------------------------------------

  const AnswersHeading := "\n\nRéponses aux questions de clarification :\n"

  /**
   * Generate on step 4. Non-blank answers are appended to the additional instructions,
   * under a heading; then step 5 opens. Instructions that are not text make the
   * concatenation raise, and nothing changes.
   */
  function Step4Generate(st: State): State
    requires Ready(st)
  {
    var ans := st.reponsesIa.value;
    var ctx := st.contexte.value;
    if Strip(ans) == "" then st.(etape := Some(5))
    else
      var before := if InstructionsSupplementaires in ctx.fields then ctx.fields[InstructionsSupplementaires] else Str("");
      if !before.Str? then st
      else
        var ctx' := ctx.(fields := ctx.fields[InstructionsSupplementaires := Str(before.s + AnswersHeading + ans)]);
        st.(contexte := Some(ctx'), etape := Some(5))
  }

  /** What the questions call answered: the prompt's `KeyError`, or the service's next reply. */
  function QuestionsOutcome(ctx: Context, replies: seq<Result<string>>): Result<string> {
    if HasRequired(ctx) then NextReply(replies) else Err("KeyError")
  }

  /** The state after step 4's opening: questions already there, or fetched now when possible. */
  function QuestionsFetched(st: State, apiKey: string, outcome: Result<string>): State
    requires Ready(st)
  {
    if st.questionsIa.value != "" || apiKey == "" || outcome.Err? then st
    else st.(questionsIa := Some(outcome.value))
  }

  // ---------------------------------------------------------------------------
  // Step 5 and the demo
  // ---------------------------------------------------------------------------

  /** What the generation call answered. */
  function WorkflowOutcome(doc: string, ctx: Context, replies: seq<Result<string>>): Result<string> {
    if doc == [] then Err(MissingDocumentation)
    else if !HasRequired(ctx) then Err("KeyError")
    else NextReply(replies)
  }

  /** The state after step 5's opening: files already there, or generated now when possible. */
  function Generated(st: State, apiKey: string, outcome: Result<string>): State
    requires Ready(st)
  {
    if st.fichiersGeneres.value != [] || apiKey == "" || outcome.Err? then st
    else st.(reponseBrute := Some(outcome.value), fichiersGeneres := Some(Parse(outcome.value)))
  }

  /**
   * `json.loads` as far as the demo needs it: the texts it accepts, each with the
   * dictionary it decodes to; any other text raises.
   */
  datatype JsonDecoder = JsonDecoder(accepted: map<string, Context>)

  function Decode(decoder: JsonDecoder, text: string): Result<Context> {
    if text in decoder.accepted then Ok(decoder.accepted[text]) else Err("JSONDecodeError")
  }

  /** The demo's result once decoded: a failure anywhere is a failure. */
  function Decoded(text: Result<string>, decoder: JsonDecoder): Result<Context> {
    if text.Err? then Err(text.error) else Decode(decoder, text.value)
  }

  /** The demo button: with a key and a decoded context, the context is taken whole and step 5 opens. */
  function DemoApplied(st: State, apiKey: string, decoded: Result<Context>): State {
    if apiKey == "" || decoded.Err? then st
    else st.(contexte := Some(decoded.value), colonnes := Some(decoded.value.colonnes.GetOr([])),
             modeFullIa := Some(true), etape := Some(5))
  }

  lemma AppendAssoc<T>(a: seq<T>, b: seq<T>, c: seq<T>)
    ensures (a + b) + c == a + (b + c)
  {
  }

  /** The loop of the bulk import: each pasted line that names a column appends it to `cols`. */
  method AppendBulk(cols: seq<Column>, lines: seq<string>, types: seq<string>) returns (r: seq<Column>)
    requires |types| > 0
    ensures r == cols + BulkColumns(lines, types)
  {
    r := cols;
    for i := 0 to |lines|
      invariant r == cols + BulkColumns(lines[..i], types)
    {
      var column := BulkLine(lines[i], types);
      ghost var done := BulkColumns(lines[..i], types);
      assert lines[..i + 1] == lines[..i] + [lines[i]];
      BulkColumnsAppend(lines[..i], lines[i], types);
      assert BulkColumns(lines[..i + 1], types) == done + Listed(column);
      AppendAssoc(cols, done, Listed(column));
      if column.Some? {
        r := r + [column.value];
      }
    }
    assert lines[..|lines|] == lines;
  }

  // ---------------------------------------------------------------------------
  // The session object
  // ---------------------------------------------------------------------------

  class Session {
    var etape: Option<int>
    var colonnes: Option<seq<Column>>
    var questionsIa: Option<string>
    var reponsesIa: Option<string>
    var fichiersGeneres: Option<seq<GeneratedFile>>
    var reponseBrute: Option<string>
    var contexte: Option<Context>
    var modeFullIa: Option<bool>

    function Snapshot(): State
      reads this
    {
      State(etape, colonnes, questionsIa, reponsesIa, fichiersGeneres, reponseBrute, contexte, modeFullIa)
    }

    /** Writes every key of the session at once. */
    method Load(st: State)
      modifies this
      ensures Snapshot() == st
    {
      etape, colonnes, questionsIa, reponsesIa := st.etape, st.colonnes, st.questionsIa, st.reponsesIa;
      fichiersGeneres, reponseBrute, contexte, modeFullIa := st.fichiersGeneres, st.reponseBrute, st.contexte, st.modeFullIa;
    }

    /** A new browser session: no key is set. */
    constructor()
      ensures Snapshot() == Cleared
    {
      etape, colonnes, questionsIa, reponsesIa := None, None, None, None;
      fichiersGeneres, reponseBrute, contexte, modeFullIa := None, None, None, None;
    }

    /** `init_session`, run at the start of every rerun. */
    method Init()
      modifies this
      ensures Snapshot() == Initialized(old(Snapshot()))
    {
      etape, colonnes, questionsIa, reponsesIa := Some(etape.GetOr(1)), Some(colonnes.GetOr([])), Some(questionsIa.GetOr("")), Some(reponsesIa.GetOr(""));
      fichiersGeneres, reponseBrute := Some(fichiersGeneres.GetOr([])), Some(reponseBrute.GetOr(""));
      contexte, modeFullIa := Some(contexte.GetOr(EmptyContext)), Some(modeFullIa.GetOr(false));
    }

    /** The restart button: every key is deleted. */
    method Restart()
      modifies this
      ensures Snapshot() == Cleared
    {
      etape, colonnes, questionsIa, reponsesIa := None, None, None, None;
      fichiersGeneres, reponseBrute, contexte, modeFullIa := None, None, None, None;
    }

    /** The demo button of step 1: the service invents a context, which replaces the wizard's answers. */
    method Demo(apiKey: string, client: ChatClient, model: string, doc: string, domainDraw: nat, platformDraw: nat,
                decoder: JsonDecoder)
      requires domainDraw < |DemoDomains| && platformDraw < |DemoPlatforms|
      modifies this, client
      ensures apiKey == "" ==> unchanged(client)
      ensures apiKey != "" ==> Sent(client, DemoRequest(model, doc, DemoDomains[domainDraw], DemoPlatforms[platformDraw]))
      ensures Snapshot() == DemoApplied(old(Snapshot()), apiKey, Decoded(DemoOutcome(NextReply(old(client.replies))), decoder))
    {
      if apiKey == "" {
        return;
      }
      var text := DemoContext(client, model, doc, domainDraw, platformDraw);
      assert unchanged(this);
      Load(DemoApplied(Snapshot(), apiKey, Decoded(text, decoder)));
    }

    /** The checkbox loop of step 1: the ticked folders, in the order they are offered. */
    method SelectFolders(checked: seq<bool>) returns (dossiersMaj: seq<string>)
      requires |checked| == |Dossiers|
      ensures dossiersMaj == Selected(Dossiers, checked)
    {
      dossiersMaj := [];
      for i := 0 to |Dossiers|
        invariant dossiersMaj == Selected(Dossiers[..i], checked[..i])
      {
        assert Dossiers[..i + 1][..i] == Dossiers[..i] && checked[..i + 1][..i] == checked[..i];
        if checked[i] {
          dossiersMaj := dossiersMaj + [Dossiers[i]];
        }
      }
      assert Dossiers[..|Dossiers|] == Dossiers && checked[..|checked|] == checked;
    }

    /** The form of step 1, as every rerun writes it into the context. */
    method Step1Form(in1: Step1Input)
      requires Ready(Snapshot()) && Step1InputOk(in1)
      modifies this
      ensures Snapshot() == old(Snapshot()).(contexte := Some(Step1Context(old(contexte.value), in1)))
    {
      var ctx := contexte.value;
      ctx := ctx.(domaine := Some(in1.domaine));
      var ds := SelectFolders(in1.checked);
      ctx := ctx.(dossiers := Some(ds));
      ctx := ctx.(plateforme := Some(Plateformes[in1.plateforme]));
      ctx := ctx.(description := Some(in1.description));
      if "Import" in ds {
        ctx := ctx.(fields := ctx.fields[Source := Str(SourcesDonnees[in1.source])]);
        ctx := ctx.(fields := ctx.fields[FormatFichier := Str(FormatsFichiers[in1.format])]);
      }
      if "Export" in ds {
        ctx := ctx.(fields := ctx.fields[Destination := Str(DestinationsExport[in1.destination])]);
      }
      contexte := Some(ctx);
    }

    /** Next on step 1; returns the error shown, if any. */
    method Step1Submit() returns (error: Option<string>)
      requires Ready(Snapshot())
      modifies this
      ensures error == Step1Error(old(contexte.value))
      ensures Snapshot() == Step1Next(old(Snapshot()))
    {
      error := Step1Error(contexte.value);
      if error.None? {
        etape := Some(2);
      }
    }

    /** The add button of step 2. */
    method AddColumn()
      requires Ready(Snapshot())
      modifies this
      ensures Snapshot() == old(Snapshot()).(colonnes := Some(old(colonnes.value) + [NewColumn(TypesFor(old(contexte.value)))]))
    {
      colonnes := Some(colonnes.value + [NewColumn(TypesFor(contexte.value))]);
    }

    /** The import button of the bulk mode: one column appended per line that names one. */
    method BulkImport(bulk: string)
      requires Ready(Snapshot())
      modifies this
      ensures Snapshot() == old(Snapshot()).(colonnes := Some(old(colonnes.value) + BulkColumns(BulkLines(bulk), TypesFor(old(contexte.value)))))
    {
      var cols := AppendBulk(colonnes.value, BulkLines(bulk), TypesFor(contexte.value));
      colonnes := Some(cols);
    }

    /** The widgets of one row of the column editor: name, type (an index into the platform's types), nullable. */
    method EditColumn(i: nat, nom: string, typ: nat, nullable: bool)
      requires Ready(Snapshot()) && i < |colonnes.value| && typ < |TypesFor(contexte.value)|
      modifies this
      ensures Snapshot() == old(Snapshot()).(colonnes := Some(old(colonnes.value)[i := Column(nom, TypesFor(old(contexte.value))[typ], Some(nullable))]))
    {
      colonnes := Some(colonnes.value[i := Column(nom, TypesFor(contexte.value)[typ], Some(nullable))]);
    }

    /** The delete buttons of the column editor: the marked rows are dropped. */
    method DeleteColumns(marked: set<nat>)
      requires Ready(Snapshot())
      modifies this
      ensures Snapshot() == old(Snapshot()).(colonnes := Some(Unmarked(old(colonnes.value), marked)))
    {
      colonnes := Some(Unmarked(colonnes.value, marked));
    }

    /** Next on step 2. */
    method Step2Submit()
      requires Ready(Snapshot())
      modifies this
      ensures Snapshot() == Step2Next(old(Snapshot()))
    {
      var valid := Named(colonnes.value);
      colonnes := Some(valid);
      contexte := Some(contexte.value.(colonnes := Some(valid)));
      etape := Some(3);
    }

    /** The form of step 3, as every rerun writes it into the context. */
    method Step3Form(in3: Step3Input)
      requires Ready(Snapshot()) && Step3InputOk(in3)
      modifies this
      ensures Snapshot() == old(Snapshot()).(contexte := Some(old(contexte.value).(fields := Step3Fields(old(contexte.value), in3))))
    {
      var ctx := contexte.value;
      contexte := Some(ctx.(fields := Step3Fields(ctx, in3)));
    }

    /** Step 4's opening: ask the service for questions unless there already are some. Returns whether the page goes on. */
    method FetchQuestions(apiKey: string, client: ChatClient, model: string, doc: string) returns (goesOn: bool)
      requires Ready(Snapshot())
      modifies this, client
      ensures goesOn <==> old(questionsIa.value) != "" || (apiKey != "" && QuestionsOutcome(old(contexte.value), old(client.replies)).Ok?)
      ensures Snapshot() == QuestionsFetched(old(Snapshot()), apiKey, QuestionsOutcome(old(contexte.value), old(client.replies)))
      ensures old(questionsIa.value) != "" || apiKey == "" || !HasRequired(old(contexte.value)) ==> unchanged(client)
      ensures old(questionsIa.value) == "" && apiKey != "" && HasRequired(old(contexte.value)) ==>
        Sent(client, QuestionsRequest(model, doc, UserPrompt(old(contexte.value))))
    {
      if questionsIa.value != "" {
        return true;
      }
      if apiKey == "" {
        return false;
      }
      var q := AskQuestions(client, model, doc, contexte.value);
      assert Snapshot() == old(Snapshot());
      Load(QuestionsFetched(Snapshot(), apiKey, q));
      goesOn := q.Ok?;
    }

    /** The answer box of step 4. */
    method SetAnswers(text: string)
      requires Ready(Snapshot())
      modifies this
      ensures Snapshot() == old(Snapshot()).(reponsesIa := Some(text))
    {
      reponsesIa := Some(text);
    }

    /** The ask-again button of step 4: the questions are forgotten, so the next rerun asks again. */
    method Reask()
      requires Ready(Snapshot())
      modifies this
      ensures Snapshot() == old(Snapshot()).(questionsIa := Some(""))
    {
      questionsIa := Some("");
    }

    /** Generate on step 4. */
    method Step4Submit()
      requires Ready(Snapshot())
      modifies this
      ensures Snapshot() == Step4Generate(old(Snapshot()))
    {
      var ans := reponsesIa.value;
      if Strip(ans) != "" {
        var ctx := contexte.value;
        var before := if InstructionsSupplementaires in ctx.fields then ctx.fields[InstructionsSupplementaires] else Str("");
        if !before.Str? {
          return;
        }
        contexte := Some(ctx.(fields := ctx.fields[InstructionsSupplementaires := Str(before.s + AnswersHeading + ans)]));
      }
      etape := Some(5);
    }

    /**
     * Step 5's opening: generate the workflow unless files are already there. Returns
     * whether the page goes on to the files and the Back and Regenerate buttons; without
     * a key, or when the request fails, the page stops after its error message.
     */
    method FetchWorkflow(apiKey: string, client: ChatClient, model: string, doc: string) returns (goesOn: bool)
      requires Ready(Snapshot())
      modifies this, client
      ensures goesOn <==> old(fichiersGeneres.value) != [] || (apiKey != "" && WorkflowOutcome(doc, old(contexte.value), old(client.replies)).Ok?)
      ensures Snapshot() == Generated(old(Snapshot()), apiKey, WorkflowOutcome(doc, old(contexte.value), old(client.replies)))
      ensures old(fichiersGeneres.value) != [] || apiKey == "" || doc == [] || !HasRequired(old(contexte.value)) ==> unchanged(client)
      ensures old(fichiersGeneres.value) == [] && apiKey != "" && doc != [] && HasRequired(old(contexte.value)) ==>
        Sent(client, WorkflowRequest(model, doc, UserPrompt(old(contexte.value))))
    {
      if fichiersGeneres.value != [] {
        return true;
      }
      if apiKey == "" {
        return false;
      }
      var reponse := GenerateWorkflow(client, model, doc, contexte.value);
      assert Snapshot() == old(Snapshot());
      if reponse.Err? {
        return false;
      }
      var fichiers := ParseFiles(reponse.value);
      Load(Snapshot().(reponseBrute := Some(reponse.value), fichiersGeneres := Some(fichiers)));
      goesOn := true;
    }

    /** The regenerate button of step 5: the files and the raw reply are forgotten, so the next rerun generates again. */
    method Regenerate()
      requires Ready(Snapshot())
      modifies this
      ensures Snapshot() == old(Snapshot()).(fichiersGeneres := Some([]), reponseBrute := Some(""))
    {
      fichiersGeneres := Some([]);
      reponseBrute := Some("");
    }

    /** The back button of step `from` (2 to 5): the previous step opens. */
    method Back(from: int)
      requires Ready(Snapshot()) && 2 <= from <= 5
      modifies this
      ensures Snapshot() == old(Snapshot()).(etape := Some(from - 1))
    {
      etape := Some(from - 1);
    }

    /** Next on step 3. */
    method Step3Submit()
      requires Ready(Snapshot())
      modifies this
      ensures Snapshot() == old(Snapshot()).(etape := Some(4))
    {
      etape := Some(4);
    }
  }

  // ---------------------------------------------------------------------------
  // Properties of the wizard
  // ---------------------------------------------------------------------------

  /** The pages of the wizard: every key present and a step between 1 and 5. */
  predicate Valid(st: State) {
    Ready(st) && 1 <= st.etape.value <= 5
  }

  /** `init_session` only fills absent keys: a ready session is left as it is, so running it twice is running it once. */
  lemma InitKeepsReady(st: State)
    ensures Ready(st) ==> Initialized(st) == st
    ensures Initialized(Initialized(st)) == Initialized(st)
  {
  }

  /** After the restart button, `init_session` gives back the defaults: the wizard starts over at step 1 with nothing kept. */
  lemma RestartStartsOver()
    ensures Initialized(Cleared) == Defaults && Valid(Defaults) && Defaults.etape == Some(1)
  {
  }

  /** Every transition of the wizard keeps it on one of its five pages with every key present. */
  lemma TransitionsKeepValid(st: State, apiKey: string, outcome: Result<string>, decoded: Result<Context>)
    requires Valid(st)
    ensures Valid(Step1Next(st)) && Valid(Step2Next(st)) && Valid(Step4Generate(st))
    ensures Valid(QuestionsFetched(st, apiKey, outcome)) && Valid(Generated(st, apiKey, outcome))
    ensures Valid(DemoApplied(st, apiKey, decoded))
  {
  }

  /** The selection keeps the order of `xs` and holds exactly the ticked items. */
  lemma {:induction false} SelectedMembers(xs: seq<string>, checked: seq<bool>, x: string)
    requires |checked| == |xs|
    ensures x in Selected(xs, checked) <==> exists i :: 0 <= i < |xs| && checked[i] && xs[i] == x
    decreases |xs|
  {
    if xs != [] {
      var n := |xs| - 1;
      SelectedMembers(xs[..n], checked[..n], x);
      if x in Selected(xs[..n], checked[..n]) {
        var i :| 0 <= i < n && checked[..n][i] && xs[..n][i] == x;
        assert checked[i] && xs[i] == x;
      }
      if exists i :: 0 <= i < |xs| && checked[i] && xs[i] == x {
        var i :| 0 <= i < |xs| && checked[i] && xs[i] == x;
        if i < n {
          assert checked[..n][i] && xs[..n][i] == x;
        }
      }
    }
  }

  /** Ticking among three items, written out. */
  lemma SelectedOfThree(xs: seq<string>, checked: seq<bool>)
    requires |xs| == 3 && |checked| == 3
    ensures Selected(xs, checked) ==
      (if checked[0] then [xs[0]] else []) + (if checked[1] then [xs[1]] else []) + (if checked[2] then [xs[2]] else [])
  {
    assert xs[..2][..1] == xs[..1] && checked[..2][..1] == checked[..1];
    assert xs[..1][..0] == [] && checked[..1][..0] == [];
    assert Selected(xs[..1], checked[..1]) == (if checked[0] then [xs[0]] else []);
    assert Selected(xs[..2], checked[..2]) == Selected(xs[..1], checked[..1]) + (if checked[1] then [xs[1]] else []);
    assert xs[..3] == xs && checked[..3] == checked;
  }

  /** The folders of step 1 written out: the ticked ones among Import, Alimentation and Export, in that order. */
  lemma FoldersSelected(checked: seq<bool>)
    requires |checked| == |Dossiers|
    ensures Selected(Dossiers, checked) ==
      (if checked[0] then ["Import"] else []) + (if checked[1] then ["Alimentation"] else []) + (if checked[2] then ["Export"] else [])
  {
    SelectedOfThree(Dossiers, checked);
  }

  /** After the form of step 1, Next accepts exactly when the domain and the description are filled and a folder is ticked. */
  lemma Step1FormThenNext(ctx: Context, in1: Step1Input)
    requires Step1InputOk(in1)
    ensures Step1Error(Step1Context(ctx, in1)).None? <==> in1.domaine != "" && in1.description != "" && true in in1.checked
    ensures Step1Error(Step1Context(ctx, in1)) == Some("Sélectionnez au moins un dossier.") <==>
      in1.domaine != "" && in1.description != "" && true !in in1.checked
  {
    FoldersSelected(in1.checked);
    assert true in in1.checked <==> in1.checked[0] || in1.checked[1] || in1.checked[2];
  }

  /**
   * The form of step 1 makes the user prompt buildable, writes the source and the file format
   * when Import is ticked and the destination when Export is ticked, and touches no other key.
   */
  lemma Step1Writes(ctx: Context, in1: Step1Input)
    requires Step1InputOk(in1)
    ensures HasRequired(Step1Context(ctx, in1))
    ensures in1.checked[0] ==>
      (Source in Step1Context(ctx, in1).fields && FormatFichier in Step1Context(ctx, in1).fields
       && Step1Context(ctx, in1).fields[Source] == Str(SourcesDonnees[in1.source])
       && Step1Context(ctx, in1).fields[FormatFichier] == Str(FormatsFichiers[in1.format]))
    ensures in1.checked[2] ==>
      (Destination in Step1Context(ctx, in1).fields
       && Step1Context(ctx, in1).fields[Destination] == Str(DestinationsExport[in1.destination]))
    ensures !in1.checked[0] && !in1.checked[2] ==> Step1Context(ctx, in1).fields == ctx.fields
    ensures forall k :: k != Source && k != FormatFichier && k != Destination ==>
      (k in Step1Context(ctx, in1).fields <==> k in ctx.fields)
      && (k in ctx.fields ==> Step1Context(ctx, in1).fields[k] == ctx.fields[k])
  {
    FoldersSelected(in1.checked);
  }

  /** Every column of a bulk import has a name, a type of the platform and is nullable; blank lines give none. */
  lemma {:induction false} BulkColumnsShape(lines: seq<string>, types: seq<string>)
    requires |types| > 0
    ensures |BulkColumns(lines, types)| <= |lines|
    ensures forall c :: c in BulkColumns(lines, types) ==> c.nom != "" && c.typ in types && c.nullable == Some(true)
    decreases |lines|
  {
    if lines != [] {
      BulkColumnsShape(lines[..|lines| - 1], types);
    }
  }

  /**
   * The bulk import reads back the line it is meant for: `nom,type`, with a trimmed name and
   * type free of commas, gives the column of that name, with that type when the platform
   * offers it and the platform's first type otherwise.
   */
  lemma BulkLineOfPair(nom: string, typ: string, types: seq<string>)
    requires |types| > 0 && nom != "" && Trimmed(nom) && Trimmed(typ) && ',' !in nom && ',' !in typ
    ensures BulkLine(nom + "," + typ, types) == Some(Column(nom, if typ in types then typ else types[0], Some(true)))
  {
    SplitAtFirst(nom, typ, ',');
    assert Split(typ, ',') == [typ];
    StripTrimmed(nom);
    StripTrimmed(typ);
    assert Fields(nom + "," + typ) == [nom, typ];
  }

  /** A line holding only a trimmed name gives that column, with the platform's first type. */
  lemma BulkLineOfName(nom: string, types: seq<string>)
    requires |types| > 0 && nom != "" && Trimmed(nom) && ',' !in nom
    ensures BulkLine(nom, types) == Some(Column(nom, types[0], Some(true)))
  {
    StripTrimmed(nom);
    assert Fields(nom) == [nom];
  }

  /**
   * A type holding a comma is cut at it: the second field is only the text before that
   * comma, which the platform does not offer, so the column falls back to the first type.
   */
  lemma CommaTypeFallsBack(nom: string, a: string, b: string, types: seq<string>)
    requires |types| > 0 && nom != "" && Trimmed(nom) && ',' !in nom && Trimmed(a) && ',' !in a && a !in types
    ensures BulkLine(nom + "," + (a + "," + b), types) == Some(Column(nom, types[0], Some(true)))
  {
    var rest := a + "," + b;
    SplitAtFirst(nom, rest, ',');
    SplitAtFirst(a, b, ',');
    var parts := Split(nom + "," + rest, ',');
    assert parts[0] == nom && parts[1] == a;
    StripTrimmed(nom);
    StripTrimmed(a);
    var fields := Fields(nom + "," + rest);
    assert fields[0] == nom && fields[1] == a;
  }

  /** Teradata's `DECIMAL(15,2)` is offered but cannot be pasted: its line gets `VARCHAR(255)`. */
  lemma DecimalNotPastable(nom: string)
    requires nom != "" && Trimmed(nom) && ',' !in nom
    ensures "DECIMAL(15,2)" in TypesColonnesTD
    ensures BulkLine(nom + ",DECIMAL(15,2)", TypesColonnesTD) == Some(Column(nom, "VARCHAR(255)", Some(true)))
  {
    assert TypesColonnesTD[3] == "DECIMAL(15,2)";
    assert nom + ",DECIMAL(15,2)" == nom + "," + ("DECIMAL(15" + "," + "2)");
    assert "DECIMAL(15" !in TypesColonnesTD;
    CommaTypeFallsBack(nom, "DECIMAL(15", "2)", TypesColonnesTD);
  }

  /** A name and a type the bulk import reads back as written: trimmed, free of commas and of line breaks. */
  predicate Pastable(nom: string, typ: string) {
    nom != "" && Trimmed(nom) && Trimmed(typ) && ',' !in nom && ',' !in typ && BreakFree(nom) && BreakFree(typ)
  }

  /** The pasted lines `nom,type`, one per pair, in order. */
  function PairLines(ps: seq<(string, string)>): (lines: seq<string>)
    ensures |lines| == |ps|
    decreases |ps|
  {
    if ps == [] then [] else PairLines(ps[..|ps| - 1]) + [ps[|ps| - 1].0 + "," + ps[|ps| - 1].1]
  }

  /** The column a pasted pair stands for. */
  function PairColumn(p: (string, string), types: seq<string>): Column
    requires |types| > 0
  {
    Column(p.0, if p.1 in types then p.1 else types[0], Some(true))
  }

  /** A pasted `nom,type` line holds no line break and has no whitespace at either end. */
  lemma PairLineShape(nom: string, typ: string)
    requires Pastable(nom, typ)
    ensures var line := nom + "," + typ;
      line != [] && BreakFree(line) && !IsSpace(line[0]) && !IsSpace(line[|line| - 1])
  {
    var line := nom + "," + typ;
    assert line[0] == nom[0];
    assert line[|line| - 1] == if typ == [] then ',' else typ[|typ| - 1];
    forall j | 0 <= j < |line| ensures !IsLineBreak(line[j]) {
      if j < |nom| {
        assert line[j] == nom[j];
      } else if j > |nom| {
        assert line[j] == typ[j - |nom| - 1];
      }
    }
  }

  /** One more pasted pair adds its column after the others. */
  lemma BulkColumnsPairAppend(ps: seq<(string, string)>, types: seq<string>)
    requires |types| > 0 && |ps| > 0 && Pastable(ps[|ps| - 1].0, ps[|ps| - 1].1)
    ensures BulkColumns(PairLines(ps), types)
      == BulkColumns(PairLines(ps[..|ps| - 1]), types) + [PairColumn(ps[|ps| - 1], types)]
  {
    var p := ps[|ps| - 1];
    var line := p.0 + "," + p.1;
    var prev := PairLines(ps[..|ps| - 1]);
    assert PairLines(ps) == prev + [line];
    BulkLineOfPair(p.0, p.1, types);
    assert BulkLine(line, types) == Some(PairColumn(p, types));
    BulkColumnsAppend(prev, line, types);
  }

  /** The columns the pasted pairs stand for, in order. */
  function PairColumns(ps: seq<(string, string)>, types: seq<string>): (cols: seq<Column>)
    requires |types| > 0
    ensures |cols| == |ps|
    decreases |ps|
  {
    if ps == [] then [] else PairColumns(ps[..|ps| - 1], types) + [PairColumn(ps[|ps| - 1], types)]
  }

  /** The i-th of those columns is the i-th pair's. */
  lemma {:induction false} PairColumnsAt(ps: seq<(string, string)>, types: seq<string>)
    requires |types| > 0
    ensures forall i :: 0 <= i < |ps| ==> PairColumns(ps, types)[i] == PairColumn(ps[i], types)
    decreases |ps|
  {
    if ps != [] {
      var n := |ps| - 1;
      PairColumnsAt(ps[..n], types);
      assert forall i :: 0 <= i < n ==> ps[..n][i] == ps[i];
    }
  }

  /** Line by line, the pasted pairs give their columns, one each, in order. */
  lemma {:induction false} BulkColumnsOfPairs(ps: seq<(string, string)>, types: seq<string>)
    requires |types| > 0 && forall i :: 0 <= i < |ps| ==> Pastable(ps[i].0, ps[i].1)
    ensures BulkColumns(PairLines(ps), types) == PairColumns(ps, types)
    decreases |ps|
  {
    if ps != [] {
      var n := |ps| - 1;
      var init := ps[..n];
      assert forall i :: 0 <= i < n ==> init[i] == ps[i];
      BulkColumnsOfPairs(init, types);
      BulkColumnsPairAppend(ps, types);
    }
  }

  /**
   * The bulk import of a whole pasted text: `n` lines `nom,type`, joined by newlines, add
   * exactly `n` columns, the i-th named and typed by the i-th line.
   */
  lemma BulkImportOfPairs(ps: seq<(string, string)>, types: seq<string>)
    requires |types| > 0 && |ps| > 0 && forall i :: 0 <= i < |ps| ==> Pastable(ps[i].0, ps[i].1)
    ensures |BulkColumns(BulkLines(Join(PairLines(ps), "\n")), types)| == |ps|
    ensures forall i :: 0 <= i < |ps| ==>
      BulkColumns(BulkLines(Join(PairLines(ps), "\n")), types)[i] == PairColumn(ps[i], types)
  {
    var lines := PairLines(ps);
    PairLinesAt(ps);
    forall k | 0 <= k < |lines|
      ensures lines[k] != [] && BreakFree(lines[k]) && !IsSpace(lines[k][0]) && !IsSpace(lines[k][|lines[k]| - 1])
    {
      assert Pastable(ps[k].0, ps[k].1);
      PairLineShape(ps[k].0, ps[k].1);
    }
    var text := Join(lines, "\n");
    JoinEnds(lines, "\n");
    assert Trimmed(text);
    StripTrimmed(text);
    SplitLinesOfJoin(lines);
    BulkColumnsOfPairs(ps, types);
    PairColumnsAt(ps, types);
  }

  /** The i-th pasted line is the i-th pair written `nom,type`. */
  lemma {:induction false} PairLinesAt(ps: seq<(string, string)>)
    ensures forall i :: 0 <= i < |ps| ==> PairLines(ps)[i] == ps[i].0 + "," + ps[i].1
    decreases |ps|
  {
    if ps != [] {
      var n := |ps| - 1;
      PairLinesAt(ps[..n]);
      assert forall i :: 0 <= i < n ==> ps[..n][i] == ps[i];
    }
  }

  /** Deleting no row keeps every column. */
  lemma {:induction false} UnmarkedNone(cols: seq<Column>, marked: set<nat>)
    requires forall j :: j in marked ==> j >= |cols|
    ensures Unmarked(cols, marked) == cols
    decreases |cols|
  {
    if cols != [] {
      var n := |cols| - 1;
      UnmarkedNone(cols[..n], marked);
    }
  }

  /** Deleting row `i` drops that column and keeps the others in order. */
  lemma {:induction false} UnmarkedOne(cols: seq<Column>, i: nat)
    requires i < |cols|
    ensures Unmarked(cols, {i}) == cols[..i] + cols[i + 1..]
    decreases |cols|
  {
    var n := |cols| - 1;
    if n == i {
      UnmarkedNone(cols[..n], {i});
    } else {
      UnmarkedOne(cols[..n], i);
      assert cols[..n][..i] == cols[..i];
      assert cols[..n][i + 1..] + [cols[n]] == cols[i + 1..];
    }
  }

  /** Keeping the named columns of a concatenation keeps those of each part. */
  lemma {:induction false} NamedAppend(a: seq<Column>, b: seq<Column>)
    ensures Named(a + b) == Named(a) + Named(b)
    decreases |b|
  {
    if b == [] {
      assert a + b == a;
    } else {
      var n := |b| - 1;
      var last := if Strip(b[n].nom) != "" then [b[n]] else [];
      assert (a + b)[..|a + b| - 1] == a + b[..n];
      assert (a + b)[|a + b| - 1] == b[n];
      assert Named(a + b) == Named(a + b[..n]) + last;
      NamedAppend(a, b[..n]);
      assert Named(b) == Named(b[..n]) + last;
      AppendAssoc(Named(a), Named(b[..n]), last);
    }
  }

  /** The named columns are exactly the columns whose stripped name is not empty. */
  lemma {:induction false} NamedMembers(cols: seq<Column>, c: Column)
    ensures c in Named(cols) <==> c in cols && Strip(c.nom) != ""
    decreases |cols|
  {
    if cols != [] {
      var n := |cols| - 1;
      NamedMembers(cols[..n], c);
      assert cols == cols[..n] + [cols[n]];
    }
  }

  /** Filtering the named columns a second time changes nothing. */
  lemma {:induction false} NamedIdempotent(cols: seq<Column>)
    ensures Named(Named(cols)) == Named(cols)
    decreases |cols|
  {
    if cols != [] {
      var n := |cols| - 1;
      NamedIdempotent(cols[..n]);
      var last := if Strip(cols[n].nom) != "" then [cols[n]] else [];
      NamedAppend(Named(cols[..n]), last);
      if last != [] {
        assert Named(last) == Named([] + last) == last;
      }
    }
  }

  /**
   * Next on step 2 leaves only named columns, gives the session and the context the same
   * columns, and pressing it again changes nothing but the step.
   */
  lemma Step2NextNamed(st: State)
    requires Ready(st)
    ensures forall c :: c in Step2Next(st).colonnes.value ==> Strip(c.nom) != ""
    ensures Step2Next(st).contexte.value.colonnes == Step2Next(st).colonnes
    ensures Step2Next(Step2Next(st)) == Step2Next(st)
  {
    forall c | c in Step2Next(st).colonnes.value {
      NamedMembers(st.colonnes.value, c);
    }
    NamedIdempotent(st.colonnes.value);
  }

  /**
   * The form of step 3 writes the keys of the ticked folders' sections (the URIs only for
   * cloud storage, the key only for the modes that merge) plus the purges and the
   * instructions, and leaves every other key as it was.
   */
  lemma Step3Writes(ctx: Context, in3: Step3Input)
    requires Step3InputOk(in3)
    ensures Extends(Step3Fields(ctx, in3), ctx.fields, Step3Keys(ctx, ModesChargement[in3.modeChargement]))
  {
    var ds := ctx.dossiers.GetOr([]);
    var f := ctx.fields;
    var mode := ModesChargement[in3.modeChargement];
    var f1 := if "Import" in ds then ImportWrites(f, in3) else f;
    var f2 := if "Alimentation" in ds then AlimentationWrites(f1, in3) else f1;
    var f3 := if "Export" in ds then ExportWrites(f2, in3) else f2;
    var k1 := if "Import" in ds then ImportKeys(f) else {};
    var k2 := if "Alimentation" in ds then AlimentationKeys(mode) else {};
    var k3 := if "Export" in ds then ExportKeys(f) else {};
    var k4 := {DureePurgeArchive, DureePurgeExport, InstructionsSupplementaires};
    if "Import" in ds { ImportWritesKeys(f, in3); } else { ExtendsSelf(f); }
    if "Alimentation" in ds { AlimentationWritesKeys(f1, in3); } else { ExtendsSelf(f1); }
    if "Export" in ds {
      ExportWritesKeys(f2, in3);
      assert ExportKeys(f2) == ExportKeys(f);
    } else {
      ExtendsSelf(f2);
    }
    PurgesWrites(f3, in3);
    ExtendsTrans(f, f1, f2, k1, k2);
    ExtendsTrans(f, f2, f3, k1 + k2, k3);
    ExtendsTrans(f, f3, Step3Fields(ctx, in3), k1 + k2 + k3, k4);
  }

  /** `g` is `f` with the keys `written` set and every other key left as it was. */
  predicate Extends(g: map<Key, Value>, f: map<Key, Value>, written: set<Key>) {
    g.Keys == f.Keys + written && forall k :: k in f && k !in written ==> g[k] == f[k]
  }

  lemma ExtendsSelf(f: map<Key, Value>)
    ensures Extends(f, f, {})
  {
  }

  lemma PurgesWrites(f: map<Key, Value>, in3: Step3Input)
    ensures Extends(f[DureePurgeArchive := Int(in3.dureePurgeArchive)][DureePurgeExport := Int(in3.dureePurgeExport)]
      [InstructionsSupplementaires := Str(in3.instructions)], f, {DureePurgeArchive, DureePurgeExport, InstructionsSupplementaires})
  {
  }

  lemma ExtendsTrans(f: map<Key, Value>, g: map<Key, Value>, h: map<Key, Value>, k1: set<Key>, k2: set<Key>)
    requires Extends(g, f, k1) && Extends(h, g, k2)
    ensures Extends(h, f, k1 + k2)
  {
  }

  lemma ImportWritesKeys(f: map<Key, Value>, in3: Step3Input)
    requires Step3InputOk(in3)
    ensures Extends(ImportWrites(f, in3), f, ImportKeys(f))
    ensures Source in ImportWrites(f, in3) <==> Source in f
    ensures Source in f ==> ImportWrites(f, in3)[Source] == f[Source]
    ensures Destination in ImportWrites(f, in3) <==> Destination in f
    ensures Destination in f ==> ImportWrites(f, in3)[Destination] == f[Destination]
  {
  }

  lemma AlimentationWritesKeys(f: map<Key, Value>, in3: Step3Input)
    requires Step3InputOk(in3)
    ensures Extends(AlimentationWrites(f, in3), f, AlimentationKeys(ModesChargement[in3.modeChargement]))
    ensures Destination in AlimentationWrites(f, in3) <==> Destination in f
    ensures Destination in f ==> AlimentationWrites(f, in3)[Destination] == f[Destination]
  {
  }

  lemma ExportWritesKeys(f: map<Key, Value>, in3: Step3Input)
    ensures Extends(ExportWrites(f, in3), f, ExportKeys(f))
  {
  }

  /**
   * Generate on step 4: blank answers only move to step 5; other answers end the
   * instructions, after the heading, behind the instructions already there, and nothing
   * else of the context changes; instructions that are not text stop everything.
   */
  lemma AnswersAppended(st: State)
    requires Ready(st)
    ensures Strip(st.reponsesIa.value) == "" ==> Step4Generate(st) == st.(etape := Some(5))
    ensures var f := st.contexte.value.fields;
      Strip(st.reponsesIa.value) != "" && (InstructionsSupplementaires !in f || f[InstructionsSupplementaires].Str?) ==>
        var f' := Step4Generate(st).contexte.value.fields;
        var before := if InstructionsSupplementaires in f then f[InstructionsSupplementaires].s else "";
        Step4Generate(st).etape == Some(5)
        && InstructionsSupplementaires in f' && f'[InstructionsSupplementaires].Str?
        && StartsWith(f'[InstructionsSupplementaires].s, before)
        && EndsWith(f'[InstructionsSupplementaires].s, AnswersHeading + st.reponsesIa.value)
        && f' == f[InstructionsSupplementaires := f'[InstructionsSupplementaires]]
    ensures var f := st.contexte.value.fields;
      Strip(st.reponsesIa.value) != "" && InstructionsSupplementaires in f && !f[InstructionsSupplementaires].Str? ==>
        Step4Generate(st) == st
  {
    var f := st.contexte.value.fields;
    var ans := st.reponsesIa.value;
    if Strip(ans) != "" && (InstructionsSupplementaires !in f || f[InstructionsSupplementaires].Str?) {
      var before := if InstructionsSupplementaires in f then f[InstructionsSupplementaires].s else "";
      var text := before + AnswersHeading + ans;
      assert text == before + (AnswersHeading + ans);
      assert text[..|before|] == before;
      EndsWithSuffix(AnswersHeading + ans, AnswersHeading + ans);
      EndsWithConcat(before, AnswersHeading + ans, AnswersHeading + ans);
    }
  }

  /** Once there are questions, reruns of step 4 ask nothing more; after ask-again, the next answer is taken. */
  lemma QuestionsAskedOnce(st: State, apiKey: string, outcome: Result<string>, later: Result<string>)
    requires Ready(st)
    ensures QuestionsFetched(st, apiKey, outcome).questionsIa.value != "" ==>
      QuestionsFetched(QuestionsFetched(st, apiKey, outcome), apiKey, later) == QuestionsFetched(st, apiKey, outcome)
    ensures apiKey != "" && later.Ok? ==>
      QuestionsFetched(st.(questionsIa := Some("")), apiKey, later).questionsIa == Some(later.value)
  {
  }

  /**
   * Step 5 generates while there are no files: a reply holding no file block leaves the list
   * empty, so the next rerun calls the service again; one holding blocks is kept.
   */
  lemma GeneratedUntilFiles(st: State, apiKey: string, reply: string, later: Result<string>)
    requires Ready(st) && st.fichiersGeneres.value == [] && apiKey != ""
    ensures Generated(st, apiKey, Ok(reply)).fichiersGeneres == Some(Parse(reply))
    ensures Generated(st, apiKey, Ok(reply)).reponseBrute == Some(reply)
    ensures Parse(reply) != [] ==> Generated(Generated(st, apiKey, Ok(reply)), apiKey, later) == Generated(st, apiKey, Ok(reply))
  {
  }

  /** A reply made of well-formed file blocks gives step 5 exactly those files, normalised as the parser writes them. */
  lemma GeneratedFromBlocks(st: State, apiKey: string, fs: seq<GeneratedFile>)
    requires Ready(st) && st.fichiersGeneres.value == [] && apiKey != "" && AllValid(fs)
    ensures Generated(st, apiKey, Ok(Render(fs))).fichiersGeneres == Some(NormalizedAll(fs))
  {
    ParseRender(fs);
  }

  /** The session's columns and the context's agree. */
  predicate ColumnsAgree(st: State)
    requires Ready(st)
  {
    st.contexte.value.colonnes.GetOr([]) == st.colonnes.value
  }

  /** The demo, once its context is decoded, opens step 5 in full-AI mode with columns that agree with the context. */
  lemma DemoOpensGeneration(st: State, apiKey: string, ctx: Context)
    requires Ready(st) && apiKey != ""
    ensures Ready(DemoApplied(st, apiKey, Ok(ctx))) && ColumnsAgree(DemoApplied(st, apiKey, Ok(ctx)))
    ensures DemoApplied(st, apiKey, Ok(ctx)).etape == Some(5) && DemoApplied(st, apiKey, Ok(ctx)).modeFullIa == Some(true)
  {
  }

  /** A fenced JSON reply whose body the decoder accepts gives the demo that body's context. */
  lemma DemoOfFencedReply(tag: string, json: string, decoder: JsonDecoder)
    requires '\n' !in tag && Trimmed(json) && json in decoder.accepted
    ensures Decoded(DemoOutcome(Ok(Fenced(tag, json))), decoder) == Ok(decoder.accepted[json])
  {
    JsonTextOfFenced(tag, json);
  }
}
