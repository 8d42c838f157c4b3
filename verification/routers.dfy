/** `DatabaseRouter`: models of the `core` app live in the `core` database,
    every other app's models in `default`. */
module Routers {

  /** `route_app_labels` */
  const ROUTE_APP_LABELS: map<string, string> := map["core" := "core"]

  /** `db_for_read` for a model of the app `appLabel`. */
  function DbForRead(appLabel: string): (db: string)
    ensures appLabel == "core" ==> db == "core"
    ensures appLabel != "core" ==> db == "default"
  {
    if appLabel in ROUTE_APP_LABELS then ROUTE_APP_LABELS[appLabel] else "default"
  }

  /** `db_for_write` for a model of the app `appLabel`. */
  function DbForWrite(appLabel: string): (db: string)
    ensures appLabel == "core" ==> db == "core"
    ensures appLabel != "core" ==> db == "default"
  {
    if appLabel in ROUTE_APP_LABELS then ROUTE_APP_LABELS[appLabel] else "default"
  }

  /** `allow_migrate`: a routed app migrates only on its own database; any
      other app never on a routed database, and otherwise only on `default`. */
  function AllowMigrate(db: string, appLabel: string): (ok: bool)
    ensures appLabel == "core" ==> (ok <==> db == "core")
    ensures appLabel != "core" && db == "core" ==> !ok
    ensures appLabel != "core" && db != "core" ==> (ok <==> db == "default")
  {
    if appLabel in ROUTE_APP_LABELS then db == ROUTE_APP_LABELS[appLabel]
    else if db in ROUTE_APP_LABELS.Values then false
    else db == "default"
  }

  /** Reads and writes of a model go to the same database. */
  lemma ReadWriteAgree(appLabel: string)
    ensures DbForRead(appLabel) == DbForWrite(appLabel)
    ensures DbForRead(appLabel) in {"core", "default"}
  {
  }

  /** Every app migrates on exactly one database, the one its writes go to. */
  lemma MigratesWhereWritten(db: string, appLabel: string)
    ensures AllowMigrate(db, appLabel) <==> db == DbForWrite(appLabel)
  {
  }

  /** No two distinct databases both accept the same app's migrations, and
      one always does. */
  lemma ExactlyOneDatabase(appLabel: string, db1: string, db2: string)
    ensures AllowMigrate(db1, appLabel) && AllowMigrate(db2, appLabel) ==> db1 == db2
    ensures exists db :: AllowMigrate(db, appLabel)
  {
    MigratesWhereWritten(db1, appLabel);
    MigratesWhereWritten(db2, appLabel);
    MigratesWhereWritten(DbForWrite(appLabel), appLabel);
  }
}
