/**
 * The two prompts sent to the language model for a workflow: the system prompt, a
 * fixed set of instructions followed by the documentation text, and the user prompt,
 * which writes the context gathered by the wizard one line per piece, in a fixed order,
 * leaving out the optional pieces whose value is empty.
 */
module Prompts {
  import opened Wrappers
  import opened Text

  /** A scalar value of the context, as a form widget or the JSON of the demo gives it. */
  datatype Value = Str(s: string) | Int(n: int) | Bool(b: bool)

  /** Python truthiness: a non-empty string, a non-zero number, `True`. */
  predicate Truthy(v: Value) {
    match v
    case Str(s) => s != []
    case Int(n) => n != 0
    case Bool(b) => b
  }

  /** How an f-string writes a value. */
  function Show(v: Value): string {
    match v
    case Str(s) => s
    case Int(n) => IntToString(n)
    case Bool(b) => if b then "True" else "False"
  }

  /** One column of the data structure; `nullable` is `None` when the key is missing. */
  datatype Column = Column(nom: string, typ: string, nullable: Option<bool>)

  /** The optional keys of the context that get a line of their own in the user prompt. */
  datatype Key =
    | Source | UriSource | Destination | UriDestination
    | FormatFichier | Separateur | Entete
    | NomTableStaging | NomTableSocle | ClePrimaire | ModeChargement
    | RepIn | RepWork | RepArch | RepExport
    | DureePurgeArchive | DureePurgeExport
    | MasqueFichier | NomFichierExport | InstructionsSupplementaires

  /**
   * The context dictionary. The keys with a shape of their own are fields (`None` when
   * the key is absent); the optional scalar keys form a map, absent keys being absent from it.
   */
  datatype Context = Context(
    domaine: Option<string>,
    plateforme: Option<string>,
    description: Option<string>,
    dossiers: Option<seq<string>>,
    colonnes: Option<seq<Column>>,
    fields: map<Key, Value>)

  /** The empty dictionary `{}`. */
  const EmptyContext := Context(None, None, None, None, None, map[])

  /** The keys the user prompt reads with `[]`: without them it raises `KeyError`. */
  predicate HasRequired(ctx: Context) {
    ctx.domaine.Some? && ctx.plateforme.Some? && ctx.description.Some?
  }

  /** What the line of an optional key starts with. */
  function Label(k: Key): string {
    match k
    case Source => "- Source des données : "
    case UriSource => "- URI source : "
    case Destination => "- Destination export : "
    case UriDestination => "- URI destination : "
    case FormatFichier => "- Format de fichier : "
    case Separateur => "- Séparateur CSV : "
    case Entete => "- Fichier avec en-tête : "
    case NomTableStaging => "- Nom table staging : "
    case NomTableSocle => "- Nom table SOCLE : "
    case ClePrimaire => "- Clé primaire (pour MERGE/UPSERT) : "
    case ModeChargement => "- Mode de chargement : "
    case RepIn => "- Répertoire entrée : "
    case RepWork => "- Répertoire travail : "
    case RepArch => "- Répertoire archive : "
    case RepExport => "- Répertoire export : "
    case DureePurgeArchive => "- Purge archives après : "
    case DureePurgeExport => "- Purge exports après : "
    case MasqueFichier => "- Masque regex des fichiers : "
    case NomFichierExport => "- Nom fichier export : "
    case InstructionsSupplementaires => "\nInstructions complémentaires :\n"
  }

  /** What follows the value on the line of an optional key: the purge durations are in months. */
  function Unit(k: Key): string {
    if k == DureePurgeArchive || k == DureePurgeExport then " mois" else ""
  }

  /** The line of optional key `k` with value `v`. */
  function Line(k: Key, v: Value): string {
    Label(k) + Show(v) + Unit(k)
  }

  /** The optional keys written before the column section, in the order the prompt writes them. */
  const BeforeColumns: seq<Key> := [
    Source, UriSource, Destination, UriDestination, FormatFichier, Separateur, Entete,
    NomTableStaging, NomTableSocle, ClePrimaire, ModeChargement]

  /** The optional keys written after the column section, in the order the prompt writes them. */
  const AfterColumns: seq<Key> := [
    RepIn, RepWork, RepArch, RepExport, DureePurgeArchive, DureePurgeExport,
    MasqueFichier, NomFichierExport, InstructionsSupplementaires]

  /** The line of key `k` when it is present with a truthy value, and nothing otherwise. */
  function Opt(f: map<Key, Value>, k: Key): seq<string> {
    if k in f && Truthy(f[k]) then [Line(k, f[k])] else []
  }

  /** The chain of conditional appends, one per key of `ks`. */
  function OptLines(f: map<Key, Value>, ks: seq<Key>): seq<string> {
    if ks == [] then [] else Opt(f, ks[0]) + OptLines(f, ks[1..])
  }

  /** The keys of `ks` that are present with a truthy value, in the order of `ks`. */
  function Shown(f: map<Key, Value>, ks: seq<Key>): (r: seq<Key>)
    ensures |r| <= |ks|
    ensures forall k :: k in r <==> k in ks && k in f && Truthy(f[k])
  {
    if ks == [] then []
    else (if ks[0] in f && Truthy(f[ks[0]]) then [ks[0]] else []) + Shown(f, ks[1..])
  }

  const Intro := "Génère un workflow JobMaster complet avec ces paramètres :\n"
  const NoDossiers := "à déterminer par l'IA"
  const Closing := "\nGénère tous les fichiers nécessaires (YAML + SQL + installation) en respectant strictement la documentation et la structure de données fournie."

  /** The folders to generate: their `", "`-join, or a fixed phrase when the list is absent or empty. */
  function DossiersText(ds: Option<seq<string>>): string {
    if ds.Some? && ds.value != [] then Join(ds.value, ", ") else NoDossiers
  }

  /** The five lines every user prompt starts with. */
  function Header(ctx: Context): seq<string>
    requires HasRequired(ctx)
  {
    [Intro,
     "- Domaine : " + ctx.domaine.value,
     "- Dossiers à générer : " + DossiersText(ctx.dossiers),
     "- Plateforme : " + ctx.plateforme.value,
     "- Description : " + ctx.description.value]
  }

  /** `" NOT NULL"` for a column that is not nullable; a missing `nullable` counts as `True`. */
  function NullMark(nullable: Option<bool>): string {
    if nullable.GetOr(true) then "" else " NOT NULL"
  }

  function ColumnRow(c: Column): string {
    "  - " + c.nom + " (" + c.typ + NullMark(c.nullable) + ")"
  }

  function ColumnsHeader(n: nat): string {
    "\nStructure des données (" + NatToString(n) + " colonnes) :"
  }

  function ColumnRows(cols: seq<Column>): seq<string> {
    seq(|cols|, i requires 0 <= i < |cols| => ColumnRow(cols[i]))
  }

  /** The column section: a header giving the count, then one row per column; nothing without columns. */
  function ColumnLines(cols: Option<seq<Column>>): seq<string> {
    if cols.Some? && cols.value != [] then [ColumnsHeader(|cols.value|)] + ColumnRows(cols.value) else []
  }

  /** The lines of the user prompt. */
  function Lines(ctx: Context): seq<string>
    requires HasRequired(ctx)
  {
    Header(ctx) + OptLines(ctx.fields, BeforeColumns) + ColumnLines(ctx.colonnes)
    + OptLines(ctx.fields, AfterColumns) + [Closing]
  }

  /** `construire_user_prompt`: the lines joined by newlines. */
  function UserPrompt(ctx: Context): string
    requires HasRequired(ctx)
  {
    Join(Lines(ctx), "\n")
  }

  /** The loop over the columns: one row appended per column, in order. */
  method AppendColumnRows(lignes: seq<string>, cols: seq<Column>) returns (out: seq<string>)
    ensures out == lignes + ColumnRows(cols)
  {
    out := lignes;
    for i := 0 to |cols|
      invariant out == lignes + ColumnRows(cols[..i])
    {
      assert ColumnRows(cols[..i + 1]) == ColumnRows(cols[..i]) + [ColumnRow(cols[i])];
      out := out + [ColumnRow(cols[i])];
    }
    assert cols[..|cols|] == cols;
  }

  /** The user prompt built as the source builds it: a list of lines grown by appends, then joined. */
  method BuildUserPrompt(ctx: Context) returns (prompt: string)
    requires HasRequired(ctx)
    ensures prompt == UserPrompt(ctx)
  {
    var lignes := Header(ctx);
    lignes := lignes + OptLines(ctx.fields, BeforeColumns);
    if ctx.colonnes.Some? && ctx.colonnes.value != [] {
      var before := lignes;
      lignes := lignes + [ColumnsHeader(|ctx.colonnes.value|)];
      lignes := AppendColumnRows(lignes, ctx.colonnes.value);
      assert lignes == before + ColumnLines(ctx.colonnes);
    } else {
      assert lignes == lignes + ColumnLines(ctx.colonnes);
    }
    lignes := lignes + OptLines(ctx.fields, AfterColumns);
    lignes := lignes + [Closing];
    prompt := Join(lignes, "\n");
  }

  /** The conditional appends give exactly the lines of the shown keys, in order. */
  lemma {:induction false} OptLinesShown(f: map<Key, Value>, ks: seq<Key>)
    ensures |OptLines(f, ks)| == |Shown(f, ks)|
    ensures forall i :: 0 <= i < |Shown(f, ks)| ==> OptLines(f, ks)[i] == Line(Shown(f, ks)[i], f[Shown(f, ks)[i]])
    decreases |ks|
  {
    if ks != [] {
      OptLinesShown(f, ks[1..]);
    }
  }

  /** A key whose value is falsy (an empty string, `0`, `False`) writes what an absent key writes. */
  lemma {:induction false} FalsyOptLines(f: map<Key, Value>, k: Key, v: Value, ks: seq<Key>)
    requires !Truthy(v)
    ensures OptLines(f[k := v], ks) == OptLines(f - {k}, ks)
    decreases |ks|
  {
    if ks != [] {
      assert Opt(f[k := v], ks[0]) == Opt(f - {k}, ks[0]);
      FalsyOptLines(f, k, v, ks[1..]);
    }
  }

  /** Every optional key is written either before or after the column section. */
  lemma KeyPlaced(k: Key)
    ensures k in BeforeColumns || k in AfterColumns
  {
  }

  /**
   * The line count: five header lines, one line per shown key, the column section
   * and the closing line.
   */
  lemma LineCount(ctx: Context)
    requires HasRequired(ctx)
    ensures |Lines(ctx)| == 6 + |Shown(ctx.fields, BeforeColumns)| + |ColumnLines(ctx.colonnes)| + |Shown(ctx.fields, AfterColumns)|
  {
    OptLinesShown(ctx.fields, BeforeColumns);
    OptLinesShown(ctx.fields, AfterColumns);
  }

  /** A present key with a truthy value has its line in the prompt. */
  lemma ShownKeyHasLine(ctx: Context, k: Key)
    requires HasRequired(ctx) && k in ctx.fields && Truthy(ctx.fields[k])
    ensures Line(k, ctx.fields[k]) in Lines(ctx)
  {
    KeyPlaced(k);
    var ks := if k in BeforeColumns then BeforeColumns else AfterColumns;
    OptLinesShown(ctx.fields, ks);
    var s := Shown(ctx.fields, ks);
    var i :| 0 <= i < |s| && s[i] == k;
    assert OptLines(ctx.fields, ks)[i] == Line(k, ctx.fields[k]);
  }

  /** Giving an optional key a falsy value changes nothing in the prompt: it is as if the key were absent. */
  lemma FalsyIsAbsent(ctx: Context, k: Key, v: Value)
    requires HasRequired(ctx) && !Truthy(v)
    ensures UserPrompt(ctx.(fields := ctx.fields[k := v])) == UserPrompt(ctx.(fields := ctx.fields - {k}))
  {
    FalsyOptLines(ctx.fields, k, v, BeforeColumns);
    FalsyOptLines(ctx.fields, k, v, AfterColumns);
  }

  /** The prompt starts with the header lines, in order. */
  lemma UserPromptStart(ctx: Context)
    requires HasRequired(ctx)
    ensures StartsWith(UserPrompt(ctx), Intro + "\n" + ("- Domaine : " + ctx.domaine.value)
      + "\n" + ("- Dossiers à générer : " + DossiersText(ctx.dossiers))
      + "\n" + ("- Plateforme : " + ctx.plateforme.value)
      + "\n" + ("- Description : " + ctx.description.value) + "\n")
  {
    var h := Header(ctx);
    var rest := OptLines(ctx.fields, BeforeColumns) + ColumnLines(ctx.colonnes)
      + OptLines(ctx.fields, AfterColumns) + [Closing];
    assert Lines(ctx) == h + rest;
    JoinStartsWith(h, rest, "\n");
    JoinFive(h);
  }

  /** The prompt ends with the closing instruction, on a line of its own. */
  lemma UserPromptEnd(ctx: Context)
    requires HasRequired(ctx)
    ensures EndsWith(UserPrompt(ctx), "\n" + Closing)
  {
    var pre := Header(ctx) + OptLines(ctx.fields, BeforeColumns) + ColumnLines(ctx.colonnes)
      + OptLines(ctx.fields, AfterColumns);
    assert Lines(ctx) == pre + [Closing];
    JoinEndsWith(pre, Closing, "\n");
  }

  /** A column row ends with `NOT NULL)` exactly when the column is not nullable or its type itself ends so. */
  lemma ColumnNotNull(c: Column)
    ensures EndsWith(ColumnRow(c), " NOT NULL)") <==> (c.nullable == Some(false) || EndsWith(c.typ, " NOT NULL"))
  {
    var r := ColumnRow(c);
    var head := "  - " + c.nom + " (";
    if c.nullable == Some(false) {
      assert r == (head + c.typ) + " NOT NULL)";
      EndsWithConcat(head + c.typ, " NOT NULL)", " NOT NULL)");
      EndsWithSuffix(" NOT NULL)", " NOT NULL)");
    } else if |c.typ| >= 9 {
      assert r == head + (c.typ + ")");
      EndsWithConcat(head, c.typ + ")", " NOT NULL)");
      assert " NOT NULL)" == " NOT NULL" + ")";
      EndsWithCommon(c.typ, " NOT NULL", ")");
    } else {
      assert r == head + c.typ + ")";
      var j := 8 - |c.typ|;
      assert r[|r| - 10 + j] == '(';
      NotOccursAtChar(r, " NOT NULL)", |r| - 10, j);
    }
  }
}

/** The system prompt of the generation request: fixed instructions, then the documentation. */
module SystemPrompts {
  import opened Text

  /**
   * The fixed instructions of the system prompt, line by line, each line given by its
   * words: the line is its words joined by single spaces, so an empty word stands for
   * one more space.
   */
  const InstructionWords: seq<seq<string>> := [
    ["Tu", "es", "un", "expert", "JobMaster.", "Tu", "génères", "des", "workflows", "YAML", "et", "des", "scripts", "SQL"],
    ["conformes", "à", "la", "documentation", "officielle", "ci-dessous."],
    [""],
    ["CONTEXTE", "MÉTIER", ":"],
    ["-", "«", "Import", "»", "=", "rapatrier", "la", "donnée", "chez", "nous", "(SFTP", "→", "local,", "API", "→", "fichier,", "Cloud", "Storage", "→", "disque)."],
    ["", "", "Un", "dossier", "Import", "ne", "contient", "AUCUN", "INSERT/UPSERT", "en", "base."],
    ["-", "«", "Alimentation", "»", "=", "charger", "/", "transformer", "la", "donnée", "en", "base", "(INSERT,", "UPSERT,", "CREATE", "VIEW,", "etc.)."],
    ["", "", "Dès", "qu'il", "y", "a", "un", "INSERT", "ou", "un", "chargement", "en", "table,", "c'est", "un", "dossier", "Alimentation."],
    ["-", "«", "Export", "»", "=", "extraire", "la", "donnée", "et", "l'envoyer", "à", "l'extérieur", "(fichier", "→", "SFTP/API/Cloud", "Storage)."],
    [""],
    ["RÈGLES", "ABSOLUES", ":"],
    ["-", "Respecte", "EXACTEMENT", "le", "format", "YAML", "de", "la", "documentation", "(indentation", "2", "espaces,", "pas", "d'onglet)."],
    ["-", "Utilise", "UNIQUEMENT", "les", "job_id", "du", "catalogue", "officiel", "(10", "jobs)."],
    ["-", "Tous", "les", "paramètres", "listés", "pour", "un", "job_id", "sont", "OBLIGATOIRES."],
    ["-", "Le", "préfixe", "des", "variables", "est", "«", "£", "»", "(jamais", "#,", "jamais", "$)."],
    ["-", "Aère", "les", "scripts", ":", "ligne", "vide", "après", "la", "description,", "après", "parametres_env,", "et", "entre", "chaque", "job."],
    ["-", "Le", "format", "de", "id_script", "est", "Domaine_Type_Nom", "(OBLIGATOIRE)."],
    ["-", "Tu", "choisis", "toi-même", "les", "noms", "des", "fichiers", "YAML", "et", "SQL", "de", "façon", "cohérente", "et", "descriptive."],
    ["", "", "Convention", ":", "préfixe", "par", "le", "domaine,", "en", "français,", "snake_case."],
    ["-", "Pour", "installation/", ":", "chaque", "SQL", "doit", "avoir", "un", "YAML", "correspondant", "avec", "un", "job.run.sql."],
    ["-", "La", "durée", "dans", "job.fichier.effacement", "est", "en", "MOIS", "(pas", "en", "minutes)."],
    ["-", "job.run.create_view", "prend", "Plateforme", "+", "Table", "(PAS", "de", "Requete).", "La", "vue", "est", "auto-générée."],
    ["-", "Les", "masques", "(Masque)", "sont", "des", "expressions", "régulières", "(regex)."],
    [""],
    ["RÈGLES", "SQL", ":"],
    ["-", "BigQuery", "(.gql)", ":", "utiliser", "les", "types", "BQ", "(STRING,", "INT64,", "NUMERIC,", "FLOAT64,", "DATE,", "TIMESTAMP,", "BOOL)."],
    ["-", "Teradata", "(.dql)", ":", "utiliser", "les", "types", "TD", "(VARCHAR(n),", "INTEGER,", "DECIMAL(p,s),", "FLOAT,", "DATE,", "TIMESTAMP)."],
    ["-", "Les", "variables", "£", "sont", "substituées", "dans", "les", "SQL", "(ex.", "£BQ_TMP.staging_factures)."],
    ["-", "Pour", "charger", "des", "données", "depuis", "Cloud", "Storage", "dans", "BigQuery", ":"],
    ["", "", "", "", "•", "Table", "externe", ":", "CREATE", "OR", "REPLACE", "EXTERNAL", "TABLE", "avec", "OPTIONS", "(format,", "uris,", "skip_leading_rows)."],
    ["", "", "", "", "•", "Chargement", "direct", ":", "LOAD", "DATA", "OVERWRITE", "...", "FROM", "FILES", "(...)."],
    ["", "", "", "", "•", "URI", "GCS", ":", "gs://<bucket>/<chemin>/<pattern>"],
    ["-", "Pour", "Teradata", "avec", "NOS", ":"],
    ["", "", "", "", "•", "Table", "externe", ":", "CREATE", "FOREIGN", "TABLE", "avec", "USING", "(LOCATION,", "STOREDAS,", "HEADER)."],
    ["", "", "", "", "•", "URI", "S3", ":", "/s3/<bucket>/<chemin>/", "", "|", "", "Azure", ":", "/az/<container>/<chemin>/", "", "|", "", "GCS", ":", "/gs/<bucket>/<chemin>/"],
    ["-", "Chaque", "SQL", "commence", "par", "un", "commentaire", "explicatif", "en", "français."],
    ["-", "Un", "SQL", "par", "fichier,", "atomique", "(un", "objet", "=", "un", "fichier)."],
    [""],
    ["FORMAT", "DE", "RÉPONSE", ":"],
    ["Pour", "chaque", "fichier", "à", "générer,", "utilise", "ce", "format", "exact", ":"],
    [""],
    ["---", "FICHIER:", "chemin/relatif/du/fichier.yml", "---"],
    ["(contenu", "du", "fichier)"],
    ["---", "FIN", "FICHIER", "---"],
    [""],
    ["STRUCTURE", "DES", "CHEMINS", ":"],
    ["Les", "chemins", "doivent", "refléter", "cette", "arborescence", ":"],
    ["", "", "Domaine/"],
    ["", "", "", "", "Import/"],
    ["", "", "", "", "", "", "config/", "", "", "", "", "", "", "", "", "", "←", "YAML", "de", "configuration"],
    ["", "", "", "", "", "", "sql/", "", "", "", "", "", "", "", "", "", "", "", "", "←", "scripts", "SQL"],
    ["", "", "", "", "", "", "installation/", "", "", "", "←", "sous-dossier", "d'installation", "(YAML", "+", "SQL)"],
    ["", "", "", "", "Alimentation/"],
    ["", "", "", "", "", "", "config/"],
    ["", "", "", "", "", "", "sql/"],
    ["", "", "", "", "", "", "installation/"],
    ["", "", "", "", "Export/"],
    ["", "", "", "", "", "", "config/"],
    ["", "", "", "", "", "", "sql/"],
    ["", "", "", "", "", "", "installation/"],
    ["installation/", "est", "TOUJOURS", "un", "sous-dossier", "de", "Import,", "Alimentation", "ou", "Export", "(jamais", "au", "même", "niveau)."],
    ["Génère", "TOUS", "les", "fichiers", "nécessaires", ":", "YAML", "de", "config,", "SQL,", "et", "YAML", "+", "SQL", "d'installation."],
    ["Ne", "génère", "AUCUN", "texte", "explicatif", "en", "dehors", "des", "blocs", "FICHIER."],
    [""]]

  /** The lines of the fixed instructions of the system prompt, each without its newline. */
  function InstructionLines(): seq<string> {
    seq(|InstructionWords|, i requires 0 <= i < |InstructionWords| => Join(InstructionWords[i], " "))
  }

  const DocumentationMarker := "DOCUMENTATION OFFICIELLE :"

  /** The fixed text of the system prompt: the instruction lines, then the marker line, newline included. */
  function Preamble(): string {
    Join(InstructionLines() + [DocumentationMarker, ""], "\n")
  }

  /** `construire_system_prompt`: the fixed text, with the documentation text placed after it. */
  function SystemPrompt(documentation: string): string {
    Preamble() + documentation
  }

  /** The system prompt ends with the documentation, verbatim, on the lines after its marker line. */
  lemma SystemPromptEndsWithDoc(documentation: string)
    ensures EndsWith(SystemPrompt(documentation), DocumentationMarker + "\n" + documentation)
  {
    var m := DocumentationMarker + "\n";
    JoinEndsWithMarker(InstructionLines(), DocumentationMarker);
    EndsWithCommon(Preamble(), m, documentation);
  }

  /** Two system prompts are equal only when their documentation texts are: the documentation is carried whole. */
  lemma SystemPromptInjective(d1: string, d2: string)
    requires SystemPrompt(d1) == SystemPrompt(d2)
    ensures d1 == d2
  {
    var p := Preamble();
    assert d1 == (p + d1)[|p|..];
  }
}
