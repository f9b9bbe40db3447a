/** The two custom column types of the company/service schema
    (docsnaps/models.py): a fixed-length `char(N)` column and a MySQL/MariaDB
    TIMESTAMP column whose DEFAULT and ON UPDATE clauses follow the field's
    flags. The database engine is the `ENGINE` setting of the connection;
    the type Django's parent field class would return is a parameter. */
module ColumnTypes {
  import opened Common
  import opened Text

  const SqliteEngine := "django.db.backends.sqlite3"
  const MysqlEngine := "django.db.backends.mysql"

  /** `FixedCharField.db_type`: the parent type on SQLite, `char(N)` with N
      the field's max_length on every other engine. */
  function FixedCharDbType(engine: string, maxLength: nat, parentType: string): (r: string)
    ensures engine == SqliteEngine ==> r == parentType
    ensures engine != SqliteEngine ==>
              |r| == 6 + |Decimal(maxLength)| && r[..5] == "char(" && r[|r| - 1] == ')'
  {
    if engine == SqliteEngine then parentType else "char(" + Decimal(maxLength) + ")"
  }

  /** The length is written in decimal between the parentheses: it reads
      back as the field's max_length. */
  lemma FixedCharLengthReadsBack(engine: string, maxLength: nat, parentType: string)
    requires engine != SqliteEngine
    ensures var r := FixedCharDbType(engine, maxLength, parentType);
            (forall i :: 5 <= i < |r| - 1 ==> IsDigit(r[i]))
            && ParseDecimal(r[5..|r| - 1]) == maxLength
  {
    var r := FixedCharDbType(engine, maxLength, parentType);
    assert r[5..|r| - 1] == Decimal(maxLength);
    DecimalRoundTrip(maxLength);
  }

  const Timestamp := "TIMESTAMP"
  const DefaultCurrent := "DEFAULT CURRENT_TIMESTAMP"
  const OnUpdateCurrent := "ON UPDATE CURRENT_TIMESTAMP"

  /** The parts of a TIMESTAMP column type, by the chain auto_now, then
      auto_now_add, then an explicit default. The field's default is the
      `str()` of its value, None when it has none. */
  function TimestampSpec(autoNow: bool, autoNowAdd: bool, defaultValue: Option<string>): (r: seq<string>)
    ensures |r| >= 1 && r[0] == Timestamp
  {
    if autoNow then [Timestamp, DefaultCurrent, OnUpdateCurrent]
    else if autoNowAdd then [Timestamp, DefaultCurrent]
    else if defaultValue.Some? then [Timestamp, "DEFAULT " + defaultValue.value]
    else [Timestamp]
  }

  /** `MariadbTimestampField.db_type` as a value: on MySQL the joined
      TIMESTAMP spec, elsewhere the parent type. */
  function TimestampDbType(engine: string, autoNow: bool, autoNowAdd: bool, defaultValue: Option<string>,
                           parentType: string): (r: string)
    ensures engine != MysqlEngine ==> r == parentType
    ensures engine == MysqlEngine && autoNow ==>
              r == Timestamp + " " + DefaultCurrent + " " + OnUpdateCurrent
    ensures engine == MysqlEngine && !autoNow && autoNowAdd ==> r == Timestamp + " " + DefaultCurrent
    ensures engine == MysqlEngine && !autoNow && !autoNowAdd && defaultValue.Some? ==>
              r == Timestamp + " DEFAULT " + defaultValue.value
    ensures engine == MysqlEngine && !autoNow && !autoNowAdd && defaultValue.None? ==> r == Timestamp
  {
    if engine == MysqlEngine then
      var parts := TimestampSpec(autoNow, autoNowAdd, defaultValue);
      assert autoNow ==> Join(parts[1..], " ") == DefaultCurrent + " " + OnUpdateCurrent;
      Join(parts, " ")
    else parentType
  }

  /** The only state the type computation changes: a non-null field with no
      flag and no default gets the default 0 on MySQL. */
  function DefaultAfterDbType(engine: string, autoNow: bool, autoNowAdd: bool, defaultValue: Option<string>,
                              nullable: bool): (r: Option<string>)
    ensures r != defaultValue ==>
              engine == MysqlEngine && !autoNow && !autoNowAdd && defaultValue.None? && !nullable
    ensures engine == MysqlEngine && !autoNow && !autoNowAdd && defaultValue.None? && !nullable ==>
              r == Some(Decimal(0))
  {
    if engine == MysqlEngine && !autoNow && !autoNowAdd && defaultValue.None? && !nullable then Some(Decimal(0))
    else defaultValue
  }

  /** A DateTimeField stored in a MySQL/MariaDB TIMESTAMP column. */
  class MariadbTimestampField {
    var autoNow: bool
    var autoNowAdd: bool
    var defaultValue: Option<string>
    var nullable: bool

    constructor(autoNow: bool, autoNowAdd: bool, defaultValue: Option<string>, nullable: bool)
      ensures this.autoNow == autoNow && this.autoNowAdd == autoNowAdd
      ensures this.defaultValue == defaultValue && this.nullable == nullable
    {
      this.autoNow := autoNow;
      this.autoNowAdd := autoNowAdd;
      this.defaultValue := defaultValue;
      this.nullable := nullable;
    }

    /** `db_type(connection)`: builds the type spec part by part and joins it
        with spaces; on MySQL, a non-null field without flags or default is
        given the default 0. */
    method DbType(engine: string, parentType: string) returns (dbType: string)
      modifies this`defaultValue
      ensures dbType == TimestampDbType(engine, autoNow, autoNowAdd, old(defaultValue), parentType)
      ensures defaultValue == DefaultAfterDbType(engine, autoNow, autoNowAdd, old(defaultValue), nullable)
    {
      if engine == MysqlEngine {
        var typeSpec := [Timestamp];
        if autoNow {
          typeSpec := typeSpec + [DefaultCurrent, OnUpdateCurrent];
        } else if autoNowAdd {
          typeSpec := typeSpec + [DefaultCurrent];
        } else if defaultValue.Some? {
          typeSpec := typeSpec + ["DEFAULT " + defaultValue.value];
        } else if !nullable {
          defaultValue := Some(Decimal(0));
        }
        dbType := Join(typeSpec, " ");
      } else {
        dbType := parentType;
      }
    }
  }

  /** Asking twice is not the same as asking once: a non-null field with no
      flag and no default reads "TIMESTAMP" the first time and, having been
      given the default 0, "TIMESTAMP DEFAULT 0" the second time. */
  lemma SecondDbTypeSeesDefault(autoNow: bool, autoNowAdd: bool, nullable: bool)
    requires !autoNow && !autoNowAdd && !nullable
    ensures var first := TimestampDbType(MysqlEngine, autoNow, autoNowAdd, None, "");
            var after := DefaultAfterDbType(MysqlEngine, autoNow, autoNowAdd, None, nullable);
            var second := TimestampDbType(MysqlEngine, autoNow, autoNowAdd, after, "");
            first == "TIMESTAMP" && second == "TIMESTAMP DEFAULT 0"
  {
  }

  /** Every other field gives the same type on every call. */
  lemma DbTypeStableOtherwise(engine: string, autoNow: bool, autoNowAdd: bool, defaultValue: Option<string>,
                              nullable: bool, parentType: string)
    requires engine != MysqlEngine || autoNow || autoNowAdd || defaultValue.Some? || nullable
    ensures DefaultAfterDbType(engine, autoNow, autoNowAdd, defaultValue, nullable) == defaultValue
  {
  }
}
