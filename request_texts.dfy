/**
 * The fixed system prompts of the two other requests: the clarifying questions and the
 * demo context. Each is a list of lines, each line given by its words (joined by single
 * spaces, so an empty word stands for one more space), then a marker line, then the
 * documentation text.
 */
module QuestionPrompts {
  import opened Text

  const QuestionWords: seq<seq<string>> := [
    ["Tu", "es", "un", "expert", "JobMaster.", "On", "te", "donne", "les", "paramètres", "partiels", "d'un", "workflow."],
    ["Analyse-les", "et", "pose", "3", "à", "6", "questions", "précises", "pour", "clarifier", "les", "détails", "manquants."],
    ["Concentre-toi", "sur", ":"],
    ["-", "La", "structure", "des", "données", "si", "absente", "(colonnes,", "types)"],
    ["-", "Les", "chemins", "de", "fichiers", "et", "URIs"],
    ["-", "Les", "règles", "métier", "(fréquence,", "purge,", "masque", "fichier)"],
    ["-", "Le", "mode", "de", "chargement", "(FULL,", "INSERT,", "UPSERT,", "UPDATE)"],
    ["-", "Les", "tables", "de", "staging", "et", "socle"],
    [""],
    ["Réponds", "UNIQUEMENT", "avec", "une", "liste", "numérotée", "de", "questions.", "Pas", "d'introduction,", "pas", "de", "conclusion."],
    [""]]

  function QuestionLines(): seq<string> {
    seq(|QuestionWords|, i requires 0 <= i < |QuestionWords| => Join(QuestionWords[i], " "))
  }

  const DocumentationMarker := "DOCUMENTATION OFFICIELLE :"

  /** The fixed text of the questions system prompt, up to and including the marker line. */
  function QuestionsPreamble(): string {
    Join(QuestionLines() + [DocumentationMarker, ""], "\n")
  }

  /** The system prompt of `poser_questions_ia`: the fixed text, then the documentation. */
  function QuestionsSystemPrompt(documentation: string): string {
    QuestionsPreamble() + documentation
  }

  /** The questions system prompt ends with the documentation, verbatim, after its marker line. */
  lemma QuestionsPromptEndsWithDoc(documentation: string)
    ensures EndsWith(QuestionsSystemPrompt(documentation), DocumentationMarker + "\n" + documentation)
  {
    JoinEndsWithMarker(QuestionLines(), DocumentationMarker);
    EndsWithCommon(QuestionsPreamble(), DocumentationMarker + "\n", documentation);
  }
}

module DemoPrompts {
  import opened Text

  const DemoWords: seq<seq<string>> := [
    ["Tu", "es", "un", "expert", "Data", "Engineering.", "Invente", "un", "cas", "d'usage", "réaliste", "pour", "un", "workflow", "JobMaster", "avec", "le", "domaine", "ET", "la", "plateforme", "imposés", "ci-dessous.", "Génère", "un", "contexte", "JSON", "complet", "avec", "ces", "champs", ":"],
    [""],
    ["-", "domaine", ":", "nom", "du", "domaine", "métier", "(UTILISE", "le", "domaine", "imposé)"],
    ["-", "description", ":", "description", "détaillée", "du", "besoin", "en", "2-3", "phrases"],
    ["-", "plateforme", ":", "UTILISE", "la", "plateforme", "imposée", "(\"BQ\"", "ou", "\"TD\")"],
    ["-", "dossiers", ":", "liste", "parmi", "[\"Import\",", "\"Alimentation\",", "\"Export\"]", "(souvent", "Import", "+", "Alimentation)"],
    ["-", "source", ":", "source", "des", "données", "(SFTP,", "API", "REST,", "Cloud", "Storage", "(GCS),", "Fichiers", "locaux)"],
    ["-", "format_fichier", ":", "CSV", "ou", "JSON"],
    ["-", "colonnes", ":", "liste", "de", "5", "à", "10", "colonnes", "avec", "nom,", "type", "(types", "BigQuery", "si", "BQ,", "Teradata", "si", "TD)", "et", "nullable", "(bool)"],
    ["-", "mode_chargement", ":", "FULL,", "INSERT,", "UPDATE", "ou", "UPSERT"],
    ["-", "separateur", ":", "séparateur", "CSV", "(si", "applicable)"],
    [""],
    ["IMPORTANT", ":", "adapte", "les", "types", "de", "colonnes", "à", "la", "plateforme", "imposée."],
    ["", "", "BQ", "→", "STRING,", "INT64,", "NUMERIC,", "FLOAT64,", "BOOL,", "DATE,", "TIMESTAMP"],
    ["", "", "TD", "→", "VARCHAR(n),", "INTEGER,", "DECIMAL(p,s),", "FLOAT,", "DATE,", "TIMESTAMP,", "BYTEINT"],
    [""],
    ["Réponds", "UNIQUEMENT", "avec", "le", "JSON,", "sans", "introduction", "ni", "commentaire.", "Le", "JSON", "doit", "être", "valide."],
    [""]]

  function DemoLines(): seq<string> {
    seq(|DemoWords|, i requires 0 <= i < |DemoWords| => Join(DemoWords[i], " "))
  }

  const DemoMarker := "DOCUMENTATION :"

  /** The fixed text of the demo system prompt, up to and including the marker line. */
  function DemoPreamble(): string {
    Join(DemoLines() + [DemoMarker, ""], "\n")
  }

  /** The system prompt of `generer_contexte_ia`: the fixed text, then the documentation. */
  function DemoSystemPrompt(documentation: string): string {
    DemoPreamble() + documentation
  }

  /** The demo system prompt ends with the documentation, verbatim, after its marker line. */
  lemma DemoPromptEndsWithDoc(documentation: string)
    ensures EndsWith(DemoSystemPrompt(documentation), DemoMarker + "\n" + documentation)
  {
    JoinEndsWithMarker(DemoLines(), DemoMarker);
    EndsWithCommon(DemoPreamble(), DemoMarker + "\n", documentation);
  }
}
