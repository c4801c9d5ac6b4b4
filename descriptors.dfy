/**
 * The in-memory descriptions the builders read: a column, parameter or domain
 * (`ColumnData`), its default value, its autoincrement policy, a database user,
 * and the formatting routines the builders call but whose source is not part of
 * this model.
 */
module Descriptors {
  import opened Wrappers
  import opened JavaText

  /**
   * `DefaultValue`. It is a class because the domain diff compares two of them
   * with `!=`, which in Java compares references, not contents.
   */
  class DefaultValue {
    const value: JString

    constructor (value: JString)
      ensures this.value == value
    {
      this.value := value;
    }
  }

  /** `ColumnData.getAutoincrement()`: identity flag, start value and the DDL it contributes. */
  datatype Autoincrement = Autoincrement(identity: bool, startValue: int, sqlAutoincrement: string)

  /**
   * `ColumnData`: one typed attribute (table column, procedure parameter,
   * function argument, domain). The `formatted...` fields are the values of the
   * corresponding getters (`getFormattedColumnName`, `getFormattedDataType`,
   * `getFormattedDomain`, `getFormattedDomainDataType`), taken as given. The
   * `...Changed` fields are the editor's dirty flags.
   */
  datatype ColumnData = ColumnData(
    columnName: JString,
    formattedColumnName: string,
    columnType: JString,
    formattedDataType: string,
    sqlType: int,
    typeOf: bool,
    domain: JString,
    formattedDomain: string,
    formattedDomainDataType: string,
    domainTypeName: JString,
    domainNotNull: bool,
    computedBy: JString,
    isAutoincrement: bool,
    autoincrement: Autoincrement,
    defaultValue: DefaultValue,
    required: bool,
    check: JString,
    collate: JString,
    primaryKey: bool,
    description: JString,
    descriptionAsSingleComment: bool,
    cursor: bool,
    scroll: bool,
    selectOperator: JString,
    typeParameter: int,
    nameChanged: bool,
    defaultChanged: bool,
    requiredChanged: bool,
    checkChanged: bool,
    typeChanged: bool,
    descriptionChanged: bool)

  /**
   * `DefaultDatabaseUser`. `tags` lists the user's tag map in its iteration
   * order; its keys are distinct.
   */
  datatype User = User(
    name: string,
    firstName: JString,
    middleName: JString,
    lastName: JString,
    password: JString,
    active: bool,
    administrator: bool,
    plugin: JString,
    tags: seq<(string, string)>,
    comment: JString)

  /** The keys of a tag list, in order. */
  function TagKeys(tags: seq<(string, string)>): (r: seq<string>)
    ensures |r| == |tags| && forall i :: 0 <= i < |tags| ==> r[i] == tags[i].0
  {
    if tags == [] then [] else [tags[0].0] + TagKeys(tags[1..])
  }

  predicate DistinctKeys(tags: seq<(string, string)>) {
    forall i, j :: 0 <= i < j < |tags| ==> tags[i].0 != tags[j].0
  }

  /** The map a tag list stands for. */
  function TagMap(tags: seq<(string, string)>): map<string, string> {
    if tags == [] then map[] else TagMap(tags[1..])[tags[0].0 := tags[0].1]
  }

  /**
   * The formatting routines of `MiscUtils` the builders call, whose source is
   * not part of this model: `getFormattedObject` (identifier quoting),
   * `formattedDefaultValue` and `formattedSQLValue`. Every property proved
   * about a builder holds whatever these functions are.
   */
  datatype Formatter = Formatter(
    formatObject: string -> string,
    formattedDefaultValue: (DefaultValue, int) -> string,
    formattedSQLValue: (DefaultValue, int) -> string)
  {
    /** `format(s)` on a possibly-null reference; a null reference is assumed to stay null. */
    function ObjectOrNull(s: JString): (r: JString)
      ensures s.None? <==> r.None?
    {
      if s.Some? then Some(formatObject(s.value)) else None
    }
  }
}
