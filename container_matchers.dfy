/**
 * The factory methods a container gets from the matcher interface. Each
 * builds a matcher over the container itself, passing the patterns on
 * unchanged; the two drop factories differ only in the strict flag.
 */
module ContainerMatchers {
  import opened JavaLang
  import TableExists
  import DropTableIfExists

  /** `getContainer`: the receiver itself. */
  method GetContainer<C>(self: C) returns (container: C)
    ensures container == self
  {
    container := self;
  }

  /** `tableExists`: a table-exists matcher over this container. */
  method TableExistsMatcher<C>(self: C, catalogName: Option<string>, schemaName: Option<string>, tableName: Option<string>)
    returns (m: TableExists.TableExistsMatcher<C>)
    ensures fresh(m) && fresh(m.base) && m.base.container == self && m.base.tables == []
    ensures m.catalogName == catalogName && m.schemaName == schemaName && m.tableName == tableName
  {
    var container := GetContainer(self);
    m := new TableExists.TableExistsMatcher(container, catalogName, schemaName, tableName);
  }

  /** `dropTableifExists`: a drop matcher over this container, not strict. */
  method DropTableIfExistsMatcher<C>(self: C, catalogName: Option<string>, schemaName: Option<string>,
                                     tableName: Option<string>)
    returns (m: DropTableIfExists.DropTableIfExistsMatcher<C>)
    ensures fresh(m) && fresh(m.base) && m.base.container == self && m.base.tables == []
    ensures m.catalogName == catalogName && m.schemaName == schemaName && m.tableName == tableName
    ensures !m.strict
  {
    var container := GetContainer(self);
    m := new DropTableIfExists.DropTableIfExistsMatcher(container, catalogName, schemaName, tableName, false);
  }

  /** `strictDropTableifExists`: the same drop matcher, strict. */
  method StrictDropTableIfExistsMatcher<C>(self: C, catalogName: Option<string>, schemaName: Option<string>,
                                           tableName: Option<string>)
    returns (m: DropTableIfExists.DropTableIfExistsMatcher<C>)
    ensures fresh(m) && fresh(m.base) && m.base.container == self && m.base.tables == []
    ensures m.catalogName == catalogName && m.schemaName == schemaName && m.tableName == tableName
    ensures m.strict
  {
    var container := GetContainer(self);
    m := new DropTableIfExists.DropTableIfExistsMatcher(container, catalogName, schemaName, tableName, true);
  }
}
