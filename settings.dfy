/**
 * The migration settings: which table records applied migrations, in which
 * schema, and the switches for the unknown-migration check, table creation
 * and lazy loading. The package keeps one set of settings that the setters
 * change in place.
 */
module Settings {

  datatype MigrationSet = MigrationSet(
    tableName: string,
    schemaName: string,
    ignoreUnknown: bool,
    disableCreateTable: bool,
    lazyLoad: bool)

  const DefaultTableName := "gorp_migrations"

  /** The settings a program starts with: everything empty or off. */
  const Defaults := MigrationSet("", "", false, false, false)

  /** The name of the migration table: the configured one, or the default when none is configured. */
  function TableName(ms: MigrationSet): (r: string)
    ensures r != ""
    ensures ms.tableName != "" ==> r == ms.tableName
    ensures ms.tableName == "" ==> r == DefaultTableName
  {
    if ms.tableName == "" then DefaultTableName else ms.tableName
  }

  /** The settings the package-level entry points use; the setters change them in place. */
  class Package {
    var migSet: MigrationSet

    constructor()
      ensures migSet == Defaults
    {
      migSet := Defaults;
    }

    /** Sets the migration table; an empty name leaves the current one. */
    method SetTable(name: string)
      modifies this
      ensures name != "" ==> migSet == old(migSet).(tableName := name)
      ensures name == "" ==> migSet == old(migSet)
    {
      if name != "" {
        migSet := migSet.(tableName := name);
      }
    }

    /** Sets the schema of the migration table; an empty name leaves the current one. */
    method SetSchema(name: string)
      modifies this
      ensures name != "" ==> migSet == old(migSet).(schemaName := name)
      ensures name == "" ==> migSet == old(migSet)
    {
      if name != "" {
        migSet := migSet.(schemaName := name);
      }
    }

    method SetDisableCreateTable(disable: bool)
      modifies this
      ensures migSet == old(migSet).(disableCreateTable := disable)
    {
      migSet := migSet.(disableCreateTable := disable);
    }

    method SetIgnoreUnknown(v: bool)
      modifies this
      ensures migSet == old(migSet).(ignoreUnknown := v)
    {
      migSet := migSet.(ignoreUnknown := v);
    }

    method SetLazyLoad(v: bool)
      modifies this
      ensures migSet == old(migSet).(lazyLoad := v)
    {
      migSet := migSet.(lazyLoad := v);
    }
  }
}
