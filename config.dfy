/** The constant lists of config.py the wizard chooses from. */
module Config {
  /** The folder kinds, in the order the wizard offers them (the keys of `DOSSIERS_WORKFLOW`). */
  const Dossiers: seq<string> := ["Import", "Alimentation", "Export"]

  const Plateformes: seq<string> := ["BQ", "TD"]

  const SourcesDonnees: seq<string> := ["SFTP", "API REST", "Cloud Storage (GCS)", "Fichiers locaux"]

  const DestinationsExport: seq<string> := ["SFTP", "API REST", "Cloud Storage (GCS)"]

  const FormatsFichiers: seq<string> := ["CSV", "JSON"]

  const TypesColonnesBQ: seq<string> := ["STRING", "INT64", "NUMERIC", "FLOAT64", "BOOL", "DATE", "TIMESTAMP", "BYTES"]

  const TypesColonnesTD: seq<string> := [
    "VARCHAR(255)", "INTEGER", "BIGINT", "DECIMAL(15,2)", "FLOAT", "DATE", "TIMESTAMP", "BYTEINT", "BYTE(100)"]

  const ModesChargement: seq<string> := ["FULL", "INSERT", "UPDATE", "UPSERT"]

  /** The value both the source and destination lists use for cloud storage. */
  const CloudStorage := "Cloud Storage (GCS)"
}
