/** The database router of the app (docsnaps/routers.py and its identical
    copy src/docsnaps/routers.py): models of the `docsnaps` app are read
    from and written to the `docsnaps` database, and only that app migrates
    there. A routing answer of None lets Django consult the next router. */
module Routers {
  import opened Common

  const AppLabel := "docsnaps"
  const DbName := "docsnaps"

  /** `Router.db_for_read(model)`, given the model's app label. */
  function DbForRead(appLabel: string): (r: Option<string>)
    ensures r == Some(DbName) <==> appLabel == AppLabel
    ensures r != Some(DbName) ==> r == None
  {
    if appLabel == AppLabel then Some(DbName) else None
  }

  /** `Router.db_for_write(model)`, given the model's app label. */
  function DbForWrite(appLabel: string): (r: Option<string>)
    ensures r == Some(DbName) <==> appLabel == AppLabel
    ensures r != Some(DbName) ==> r == None
  {
    if appLabel == AppLabel then Some(DbName) else None
  }

  /** Reads and writes of a model are routed to the same database. */
  lemma ReadWriteAgree(appLabel: string)
    ensures DbForRead(appLabel) == DbForWrite(appLabel)
  {
  }

  /** `Router.allow_migrate(db, app_label)`: on the app's database only the
      app migrates; the app never migrates anywhere else; any other pair is
      left to other routers. */
  function AllowMigrate(db: string, appLabel: string): (r: Option<bool>)
    ensures db == DbName ==> r == Some(appLabel == AppLabel)
    ensures db != DbName && appLabel == AppLabel ==> r == Some(false)
    ensures db != DbName && appLabel != AppLabel ==> r == None
  {
    if db == DbName then Some(appLabel == AppLabel)
    else if appLabel == AppLabel then Some(false)
    else None
  }

  /** A migration the router allows is one of the app, on the app's
      database, and the app's tables are migrated nowhere else. */
  lemma MigrateOnlyHome(db: string, appLabel: string)
    ensures AllowMigrate(db, appLabel) == Some(true) <==> db == DbName && appLabel == AppLabel
    ensures appLabel == AppLabel ==> AllowMigrate(db, appLabel) == Some(db == DbForWrite(appLabel).value)
  {
  }
}
