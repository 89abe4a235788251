/**
 * The SQL check rule that reports table columns declared without a default
 * value, unless their data type is one of the types allowed to go without one.
 */
module NoDefaultValueExists {
  import opened Wrappers
  import opened StringUtils

  /** A column's data type as the parser gives it: its name (which may be null) and its text. */
  datatype DataType = DataType(name: Option<string>, text: string)

  /** The attributes of a column definition; `defaultValue` is the text of the DEFAULT expression, if any. */
  datatype ColumnAttributes = ColumnAttributes(defaultValue: Option<string>)

  /** One column definition; both the data type and the attributes may be null. */
  datatype ColumnDefinition = ColumnDefinition(
    columnName: string,
    dataType: Option<DataType>,
    attributes: Option<ColumnAttributes>)

  /**
   * The parsed statement. For ALTER TABLE, `columns` are the column
   * definitions that the statement's actions carry, in the order the
   * extraction helper yields them.
   */
  datatype Statement =
    | CreateTable(text: string, columns: seq<ColumnDefinition>)
    | AlterTable(text: string, columns: seq<ColumnDefinition>)
    | OtherStatement(text: string)

  /** The rule types; every rule type other than this rule's stands under `OtherRule`. */
  datatype SqlCheckRuleType = NoDefaultValueExistsRule | OtherRule(name: string)

  /** The SQL dialects; those this rule does not list stand under `Unlisted`. */
  datatype DialectType = ObMysql | Mysql | ObOracle | OdpShardingObMysql | Oracle | Unlisted(name: string)

  /** A reported violation: the statement text, the offending column, the rule type and the message arguments. */
  datatype CheckViolation = CheckViolation(
    sql: string,
    column: ColumnDefinition,
    ruleType: SqlCheckRuleType,
    args: seq<string>)

  /** The column has no DEFAULT: no attributes at all, or attributes without a default value. */
  predicate HasNoDefault(d: ColumnDefinition) {
    d.attributes.None? || d.attributes.value.defaultValue.None?
  }

  /** The name of the column's data type, null when the data type or its name is null. */
  function GetDataTypeName(d: ColumnDefinition): (r: Option<string>)
    ensures r.None? <==> (d.dataType.None? || d.dataType.value.name.None?)
    ensures r.Some? ==> d.dataType.Some? && r == d.dataType.value.name
  {
    if d.dataType.None? then None else d.dataType.value.name
  }

  /** `anyMatch` over the allowed types with `equalsIgnoreCase`. */
  function AnyMatchIgnoreCase(types: seq<string>, name: string): (r: bool)
    ensures r <==> exists i :: 0 <= i < |types| && EqualsIgnoreCase(types[i], name)
    decreases |types|
  {
    if types == [] then false
    else EqualsIgnoreCase(types[0], name) || AnyMatchIgnoreCase(types[1..], name)
  }

  /** Subsequence: `xs` is `ys` with some elements dropped, order kept. */
  predicate IsSubsequence<T(==)>(xs: seq<T>, ys: seq<T>)
    decreases |ys|
  {
    if xs == [] then true
    else if ys == [] then false
    else if xs[0] == ys[0] then IsSubsequence(xs[1..], ys[1..])
    else IsSubsequence(xs, ys[1..])
  }

  /**
   * The rule, holding the set of type names allowed to go without a default,
   * as a sequence in the set's iteration order.
   */
  datatype Rule = Rule(typesAllowNoDefault: seq<string>) {

    function GetType(): (t: SqlCheckRuleType)
      ensures t.NoDefaultValueExistsRule?
    {
      NoDefaultValueExistsRule
    }

    /** The five dialects the rule applies to, each once, in the order the rule lists them. */
    function GetSupportsDialectTypes(): (ds: seq<DialectType>)
      ensures |ds| == 5
      ensures forall d :: d in ds <==> !d.Unlisted?
      ensures forall i, j :: 0 <= i < j < |ds| ==> ds[i] != ds[j]
      ensures ds == [ObMysql, Mysql, ObOracle, OdpShardingObMysql, Oracle]
    {
      [ObMysql, Mysql, ObOracle, OdpShardingObMysql, Oracle]
    }

    /** A null name counts as allowed; otherwise some allowed type must equal it ignoring case. */
    function ContainsIgnoreCase(name: Option<string>): (r: bool)
      ensures r <==> (name.None? ||
        exists i :: 0 <= i < |typesAllowNoDefault| && EqualsIgnoreCase(typesAllowNoDefault[i], name.value))
    {
      if name.None? then true else AnyMatchIgnoreCase(typesAllowNoDefault, name.value)
    }

    /** The filter of `builds`: true of the columns the rule reports. */
    predicate Flagged(d: ColumnDefinition)
    {
      if d.attributes.None? then !ContainsIgnoreCase(GetDataTypeName(d))
      else d.attributes.value.defaultValue.None? && !ContainsIgnoreCase(GetDataTypeName(d))
    }

    /** Missing attributes and attributes without a default are treated alike. */
    lemma FlaggedIff(d: ColumnDefinition)
      ensures Flagged(d) <==> HasNoDefault(d) && !ContainsIgnoreCase(GetDataTypeName(d))
    {
    }

    /** The second message argument: "N/A" for an empty allow-set, else the allowed types joined with ",". */
    function AllowedTypesText(): string
    {
      if typesAllowNoDefault != [] then Join(",", typesAllowNoDefault) else "N/A"
    }

    /**
     * The second argument is "N/A" for an empty allow-set; otherwise, when no
     * allowed type contains a comma, splitting it at commas gives the allowed types back.
     */
    lemma AllowedTypesTextRecoverable()
      ensures typesAllowNoDefault == [] ==> AllowedTypesText() == "N/A"
      ensures typesAllowNoDefault != [] &&
        (forall i :: 0 <= i < |typesAllowNoDefault| ==> ',' !in typesAllowNoDefault[i])
        ==> Split(AllowedTypesText(), ',') == typesAllowNoDefault
    {
      if typesAllowNoDefault != [] && forall i :: 0 <= i < |typesAllowNoDefault| ==> ',' !in typesAllowNoDefault[i] {
        SplitJoin(',', typesAllowNoDefault);
      }
    }

    /** The violation reported for a flagged column. */
    function Violation(sql: string, d: ColumnDefinition): (v: CheckViolation)
      requires Flagged(d)
      ensures v.sql == sql && v.column == d && v.ruleType == GetType()
      ensures v.args == [d.dataType.value.text, AllowedTypesText()]
    {
      CheckViolation(sql, d, GetType(), [d.dataType.value.text, AllowedTypesText()])
    }

    /** The columns `builds` keeps, in input order. */
    function FlaggedColumns(defs: seq<ColumnDefinition>): (fs: seq<ColumnDefinition>)
      ensures |fs| <= |defs|
      ensures forall d :: d in fs ==> Flagged(d)
      decreases |defs|
    {
      if defs == [] then []
      else (if Flagged(defs[0]) then [defs[0]] else []) + FlaggedColumns(defs[1..])
    }

    /** `builds`: one violation for each flagged column, in input order. */
    function Builds(sql: string, defs: seq<ColumnDefinition>): (r: seq<CheckViolation>)
      ensures |r| <= |defs|
      ensures forall v :: v in r ==>
        v.column in defs && Flagged(v.column) && v == Violation(sql, v.column)
      decreases |defs|
    {
      if defs == [] then []
      else (if Flagged(defs[0]) then [Violation(sql, defs[0])] else []) + Builds(sql, defs[1..])
    }

    /** `check`: CREATE TABLE and ALTER TABLE columns are checked; any other statement yields nothing. */
    function Check(statement: Statement): (r: seq<CheckViolation>)
      ensures statement.OtherStatement? ==> r == []
      ensures !statement.OtherStatement? ==> r == Builds(statement.text, statement.columns)
    {
      match statement
      case CreateTable(text, columns) => Builds(text, columns)
      case AlterTable(text, columns) => Builds(text, columns)
      case OtherStatement(_) => []
    }

    /** A flagged column always has a data type, so its text can be reported. */
    lemma FlaggedHasDataTypeName(d: ColumnDefinition)
      requires Flagged(d)
      ensures d.dataType.Some? && d.dataType.value.name.Some?
    {
    }

    /**
     * The kept columns are exactly the flagged ones, as a subsequence of the
     * input, each kept as often as it occurs.
     */
    lemma {:induction false} FlaggedColumnsExact(defs: seq<ColumnDefinition>)
      ensures IsSubsequence(FlaggedColumns(defs), defs)
      ensures forall d :: d in defs ==> (d in FlaggedColumns(defs) <==> Flagged(d))
      ensures forall x :: multiset(FlaggedColumns(defs))[x] == (if Flagged(x) then multiset(defs)[x] else 0)
      decreases |defs|
    {
      if defs != [] {
        FlaggedColumnsExact(defs[1..]);
        var fs := FlaggedColumns(defs);
        var tailFs := FlaggedColumns(defs[1..]);
        assert defs == [defs[0]] + defs[1..];
        assert multiset(defs) == multiset{defs[0]} + multiset(defs[1..]);
        if Flagged(defs[0]) {
          assert fs == [defs[0]] + tailFs;
          assert fs[1..] == tailFs;
          assert multiset(fs) == multiset{defs[0]} + multiset(tailFs);
        } else {
          assert fs == tailFs;
          SubsequenceOfTail(fs, defs);
        }
      }
    }

    /** The violations are the flagged columns, one each, in the same order. */
    lemma {:induction false} BuildsIsMapOfFlagged(sql: string, defs: seq<ColumnDefinition>)
      ensures |Builds(sql, defs)| == |FlaggedColumns(defs)|
      ensures forall i :: 0 <= i < |Builds(sql, defs)| ==>
        Builds(sql, defs)[i] == Violation(sql, FlaggedColumns(defs)[i])
      decreases |defs|
    {
      if defs != [] {
        BuildsIsMapOfFlagged(sql, defs[1..]);
        var r, fs := Builds(sql, defs), FlaggedColumns(defs);
        var tailR, tailFs := Builds(sql, defs[1..]), FlaggedColumns(defs[1..]);
        if Flagged(defs[0]) {
          assert r == [Violation(sql, defs[0])] + tailR;
          assert fs == [defs[0]] + tailFs;
          forall i | 0 <= i < |r| ensures r[i] == Violation(sql, fs[i]) {
            if i > 0 {
              assert r[i] == tailR[i - 1] && fs[i] == tailFs[i - 1];
            }
          }
        } else {
          assert r == tailR && fs == tailFs;
        }
      }
    }

    /** A column whose type name is null is never reported. */
    lemma NullTypeNameNeverReported(sql: string, defs: seq<ColumnDefinition>, d: ColumnDefinition)
      requires GetDataTypeName(d).None?
      ensures forall v :: v in Builds(sql, defs) ==> v.column != d
    {
    }

    /** A column whose type name equals an allowed type, ignoring case, is never reported. */
    lemma AllowedTypeNeverReported(sql: string, defs: seq<ColumnDefinition>, d: ColumnDefinition, i: nat)
      requires i < |typesAllowNoDefault| && GetDataTypeName(d).Some?
      requires EqualsIgnoreCase(typesAllowNoDefault[i], GetDataTypeName(d).value)
      ensures forall v :: v in Builds(sql, defs) ==> v.column != d
    {
    }

    /** A column with a default value is never reported. */
    lemma DefaultValueNeverReported(sql: string, defs: seq<ColumnDefinition>, d: ColumnDefinition)
      requires d.attributes.Some? && d.attributes.value.defaultValue.Some?
      ensures forall v :: v in Builds(sql, defs) ==> v.column != d
    {
    }

    /** Conversely, every column without a default and with a type outside the allow-set is reported. */
    lemma {:induction false} FlaggedColumnReported(sql: string, defs: seq<ColumnDefinition>, d: ColumnDefinition)
      requires d in defs && HasNoDefault(d) && !ContainsIgnoreCase(GetDataTypeName(d))
      ensures Flagged(d) && Violation(sql, d) in Builds(sql, defs)
      decreases |defs|
    {
      if defs[0] != d {
        FlaggedColumnReported(sql, defs[1..], d);
      }
    }
  }

  /** Dropping the head of the longer sequence keeps a subsequence of its tail a subsequence of it. */
  lemma {:induction false} SubsequenceOfTail<T>(xs: seq<T>, ys: seq<T>)
    requires |ys| >= 1 && IsSubsequence(xs, ys[1..])
    ensures IsSubsequence(xs, ys)
    decreases |ys|, 0
  {
    if xs != [] && xs[0] == ys[0] {
      // With the heads equal, `ys` consumes `xs[0]`; what is left of `xs` is a subsequence of `ys[1..]`.
      SubsequenceOfRest(xs, ys[1..]);
    }
  }

  /** A subsequence stays one after dropping its own head. */
  lemma {:induction false} SubsequenceOfRest<T>(xs: seq<T>, ys: seq<T>)
    requires xs != [] && IsSubsequence(xs, ys)
    ensures IsSubsequence(xs[1..], ys)
    decreases |ys|, 1
  {
    if ys != [] {
      if xs[0] == ys[0] {
        SubsequenceOfTail(xs[1..], ys);
      } else {
        SubsequenceOfRest(xs, ys[1..]);
        SubsequenceOfTail(xs[1..], ys);
      }
    }
  }
}
