/** The MyBatis-Plus enums the id-type selection works with. */
module MybatisPlus {

  import opened Common

  /** `com.baomidou.mybatisplus.annotation.IdType`: how primary keys are assigned. */
  datatype IdType = AUTO | NONE | INPUT | ASSIGN_ID | ASSIGN_UUID

  /**
   * `com.baomidou.mybatisplus.annotation.DbType`, the database products the
   * decisions here distinguish; `OTHER` stands for every constant that no
   * decision names.
   */
  datatype DbType =
    | MYSQL | MARIADB | ORACLE | ORACLE_12C | DB2 | H2 | HSQL | SQLITE
    | POSTGRE_SQL | SQL_SERVER2005 | SQL_SERVER | DM | KINGBASE_ES | OTHER

  /** `IdType.name()`, which is also its `toString()`. */
  function IdTypeName(t: IdType): (name: string)
    ensures |name| >= 4
  {
    match t
    case AUTO => "AUTO"
    case NONE => "NONE"
    case INPUT => "INPUT"
    case ASSIGN_ID => "ASSIGN_ID"
    case ASSIGN_UUID => "ASSIGN_UUID"
  }

  function LowerName(t: IdType): string
  {
    match t
    case AUTO => "auto"
    case NONE => "none"
    case INPUT => "input"
    case ASSIGN_ID => "assign_id"
    case ASSIGN_UUID => "assign_uuid"
  }

  /**
   * Converting a configured text to an `IdType`: the constant's name, in
   * upper or lower case. Anything else is a conversion failure.
   */
  function IdTypeFromText(text: string): (r: Option<IdType>)
    ensures r.Some? ==> text == IdTypeName(r.value) || text == LowerName(r.value)
    ensures forall t: IdType :: IdTypeName(t) == text || LowerName(t) == text ==> r == Some(t)
  {
    if text == "AUTO" || text == "auto" then Some(AUTO)
    else if text == "NONE" || text == "none" then Some(NONE)
    else if text == "INPUT" || text == "input" then Some(INPUT)
    else if text == "ASSIGN_ID" || text == "assign_id" then Some(ASSIGN_ID)
    else if text == "ASSIGN_UUID" || text == "assign_uuid" then Some(ASSIGN_UUID)
    else None
  }
}
