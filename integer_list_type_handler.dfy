/**
 * MyBatis type handler that stores a `List<Integer>` in a VARCHAR column as
 * comma-separated decimal text, and reads it back.
 *
 * The two helpers it relies on are not part of this model and are defined
 * here as follows: `CollUtil.join(list, ",")` writes each element's decimal
 * text with "," between neighbours (a `null` list gives `null`);
 * `StrUtils.splitToInteger(text, ",")` gives the empty list for "" and
 * otherwise cuts the text at every "," and reads each field with
 * `Integer.parseInt`, failing on a field that is not a decimal `int`.
 */
module IntegerListTypeHandler {

  import opened Common
  import DecimalText

  const COMMA: char := ','

  /** The list a read produces: `null` for SQL NULL, a list, or the `NumberFormatException` of a bad field. */
  datatype ReadResult = NullList | IntegerList(items: seq<Int32>) | NumberFormatError

  /** The fields of `s` between commas, left to right; "a,,b" has an empty middle field. */
  function Split(s: string): (fields: seq<string>)
    ensures |fields| >= 1
  {
    if |s| == 0 then [""]
    else
      var rest := Split(s[1..]);
      if s[0] == COMMA then [""] + rest else [[s[0]] + rest[0]] + rest[1..]
  }

  /** `fields` written in order with a comma between neighbours. */
  function Join(fields: seq<string>): (s: string)
  {
    if |fields| == 0 then ""
    else if |fields| == 1 then fields[0]
    else fields[0] + [COMMA] + Join(fields[1..])
  }

  function Count(s: string, c: char): nat
  {
    if |s| == 0 then 0 else (if s[0] == c then 1 else 0) + Count(s[1..], c)
  }

  /** The decimal texts of the list's elements, in list order. */
  function Texts(list: seq<Int32>): (texts: seq<string>)
    ensures |texts| == |list|
    ensures forall i :: 0 <= i < |list| ==> texts[i] == DecimalText.IntToText(list[i] as int)
  {
    if |list| == 0 then [] else [DecimalText.IntToText(list[0] as int)] + Texts(list[1..])
  }

  /** `Integer.parseInt` of one field: a decimal text within the range of `int`. */
  function ParseInteger(field: string): Option<Int32>
  {
    match DecimalText.ParseInt(field)
    case Some(n) => if -0x8000_0000 <= n < 0x8000_0000 then Some(n as Int32) else None
    case None => None
  }

  /** Reads every field; the result lists their values in field order, or fails on the first bad field. */
  function ParseFields(fields: seq<string>): (r: Option<seq<Int32>>)
    ensures r.Some? <==> forall i :: 0 <= i < |fields| ==> ParseInteger(fields[i]).Some?
    ensures r.Some? ==> |r.value| == |fields|
    ensures r.Some? ==> forall i :: 0 <= i < |fields| ==> r.value[i] == ParseInteger(fields[i]).value
  {
    if |fields| == 0 then Some([])
    else
      match ParseInteger(fields[0])
      case None => None
      case Some(x) =>
        match ParseFields(fields[1..])
        case None =>
          assert forall i :: 1 <= i < |fields| ==> fields[i] == fields[1..][i - 1];
          None
        case Some(rest) =>
          assert forall i :: 1 <= i < |fields| ==> fields[i] == fields[1..][i - 1];
          Some([x] + rest)
  }

  /** `setParameter`: the text bound to the statement parameter (`None` binds SQL NULL). */
  function Encode(list: Option<seq<Int32>>): (text: Option<string>)
    ensures text.None? <==> list.None?
  {
    match list
    case None => None
    case Some(l) => Some(Join(Texts(l)))
  }

  /**
   * The private `getResult(String)`: SQL NULL stays `null`; otherwise the
   * list of the comma-separated fields' values, in left-to-right order.
   */
  function Decode(value: Option<string>): (r: ReadResult)
    ensures r.NullList? <==> value.None?
    ensures value == Some("") ==> r == IntegerList([])
    ensures value.Some? && value.value != "" ==>
      (r.IntegerList? <==> forall i :: 0 <= i < |Split(value.value)| ==> ParseInteger(Split(value.value)[i]).Some?)
    ensures r.IntegerList? && value.value != "" ==>
      |r.items| == |Split(value.value)|
      && forall i :: 0 <= i < |r.items| ==> Some(r.items[i]) == ParseInteger(Split(value.value)[i])
  {
    match value
    case None => NullList
    case Some(text) =>
      if text == "" then IntegerList([])
      else
        match ParseFields(Split(text))
        case None => NumberFormatError
        case Some(items) => IntegerList(items)
  }

  /** One row of a `ResultSet`: column labels and their values (`None` for SQL NULL). */
  datatype ResultSet = ResultSet(labels: seq<string>, values: seq<Option<string>>)

  /** The registered OUT parameters of a `CallableStatement`, by position. */
  datatype CallableStatement = CallableStatement(outValues: seq<Option<string>>)

  /** A column or parameter that cannot be fetched (`SQLException`), or the fetched value. */
  datatype Fetch = SqlError | Fetched(value: Option<string>)

  /** JDBC matches column labels without regard to case; the model folds ASCII letters. */
  function FoldCase(c: char): char
  {
    if 'A' <= c <= 'Z' then (c as int + 32) as char else c
  }

  predicate SameLabel(a: string, b: string)
  {
    |a| == |b| && forall i :: 0 <= i < |a| ==> FoldCase(a[i]) == FoldCase(b[i])
  }

  predicate HasLabel(labels: seq<string>, columnLabel: string)
  {
    exists i :: 0 <= i < |labels| && SameLabel(labels[i], columnLabel)
  }

  /** `getString(columnLabel)`: the first column whose label matches columnLabel, ignoring case. */
  function ColumnByLabel(labels: seq<string>, values: seq<Option<string>>, columnLabel: string): (f: Fetch)
    requires |labels| == |values|
    ensures f.Fetched? <==> HasLabel(labels, columnLabel)
  {
    if |labels| == 0 then SqlError
    else if SameLabel(labels[0], columnLabel) then Fetched(values[0])
    else
      var f := ColumnByLabel(labels[1..], values[1..], columnLabel);
      assert HasLabel(labels, columnLabel) ==> HasLabel(labels[1..], columnLabel) by {
        if HasLabel(labels, columnLabel) {
          var i :| 0 <= i < |labels| && SameLabel(labels[i], columnLabel);
          assert i != 0;
          assert labels[1..][i - 1] == labels[i];
        }
      }
      assert HasLabel(labels[1..], columnLabel) ==> HasLabel(labels, columnLabel) by {
        if HasLabel(labels[1..], columnLabel) {
          var i :| 0 <= i < |labels| - 1 && SameLabel(labels[1..][i], columnLabel);
          assert labels[i + 1] == labels[1..][i];
        }
      }
      f
  }

  /** `getString(index)` with JDBC's 1-based positions. */
  function ColumnByIndex(values: seq<Option<string>>, index: int): (f: Fetch)
    ensures f.Fetched? <==> 1 <= index <= |values|
    ensures f.Fetched? ==> f.value == values[index - 1]
  {
    if 1 <= index <= |values| then Fetched(values[index - 1]) else SqlError
  }

  /** Shared tail of the three public reads: the fetched string goes through `Decode`. */
  datatype Read = ReadFailed | Read(result: ReadResult)

  function DecodeFetch(f: Fetch): Read
  {
    match f
    case SqlError => ReadFailed
    case Fetched(v) => Read(Decode(v))
  }

  /** `getResult(ResultSet, String columnName)`. */
  function GetResultByName(rs: ResultSet, columnName: string): (r: Read)
    requires |rs.labels| == |rs.values|
    ensures r.Read? <==> HasLabel(rs.labels, columnName)
    ensures r.Read? ==>
      exists i :: 0 <= i < |rs.labels| && SameLabel(rs.labels[i], columnName)
        && !HasLabel(rs.labels[..i], columnName)
        && r.result == Decode(rs.values[i])
  {
    ColumnByLabelFound(rs.labels, rs.values, columnName);
    DecodeFetch(ColumnByLabel(rs.labels, rs.values, columnName))
  }

  /** `getResult(ResultSet, int columnIndex)`. */
  function GetResultByIndex(rs: ResultSet, columnIndex: int): (r: Read)
    ensures r.Read? <==> 1 <= columnIndex <= |rs.values|
    ensures r.Read? ==> r.result == Decode(rs.values[columnIndex - 1])
  {
    DecodeFetch(ColumnByIndex(rs.values, columnIndex))
  }

  /** `getResult(CallableStatement, int columnIndex)`. */
  function GetResultCallable(cs: CallableStatement, columnIndex: int): (r: Read)
    ensures r.Read? <==> 1 <= columnIndex <= |cs.outValues|
    ensures r.Read? ==> r.result == Decode(cs.outValues[columnIndex - 1])
  {
    DecodeFetch(ColumnByIndex(cs.outValues, columnIndex))
  }

  lemma {:induction false} ColumnByLabelFound(labels: seq<string>, values: seq<Option<string>>, columnLabel: string)
    requires |labels| == |values|
    ensures ColumnByLabel(labels, values, columnLabel).Fetched? ==>
      exists i :: 0 <= i < |labels| && SameLabel(labels[i], columnLabel)
        && !HasLabel(labels[..i], columnLabel)
        && ColumnByLabel(labels, values, columnLabel).value == values[i]
  {
    if |labels| > 0 && SameLabel(labels[0], columnLabel) {
      assert labels[..0] == [];
    } else if |labels| > 0 {
      ColumnByLabelFound(labels[1..], values[1..], columnLabel);
      if ColumnByLabel(labels, values, columnLabel).Fetched? {
        var i :| 0 <= i < |labels| - 1 && SameLabel(labels[1..][i], columnLabel)
          && !HasLabel(labels[1..][..i], columnLabel)
          && ColumnByLabel(labels[1..], values[1..], columnLabel).value == values[1..][i];
        assert labels[..i + 1] == [labels[0]] + labels[1..][..i];
        assert labels[i + 1] == labels[1..][i];
      }
    }
  }

  /** A label that differs only in case still finds the column, as JDBC requires. */
  lemma LabelCaseIgnored()
    ensures GetResultByName(ResultSet(["IDS"], [Some("1")]), "ids") == Read(IntegerList([1]))
  {
    assert SameLabel("IDS", "ids");
    SplitSingleField("1");
    assert ParseInteger("1") == Some(1);
  }

  // ---- properties of the encoding ----

  predicate NoComma(s: string)
  {
    forall i :: 0 <= i < |s| ==> s[i] != COMMA
  }

  lemma {:induction false} SplitSingleField(f: string)
    requires NoComma(f)
    ensures Split(f) == [f]
  {
    if |f| > 0 {
      SplitSingleField(f[1..]);
      assert [f[0]] + f[1..] == f;
    }
  }

  lemma {:induction false} SplitFirstField(f: string, t: string)
    requires NoComma(f)
    ensures Split(f + [COMMA] + t) == [f] + Split(t)
  {
    if |f| == 0 {
      assert f + [COMMA] + t == [COMMA] + t;
      assert ([COMMA] + t)[1..] == t;
    } else {
      SplitFirstField(f[1..], t);
      assert (f + [COMMA] + t)[1..] == f[1..] + [COMMA] + t;
      assert [f[0]] + f[1..] == f;
    }
  }

  /** Cutting joined fields at the commas gives the fields back, when no field holds a comma. */
  lemma {:induction false} SplitJoin(fields: seq<string>)
    requires |fields| >= 1
    requires forall i :: 0 <= i < |fields| ==> NoComma(fields[i])
    ensures Split(Join(fields)) == fields
  {
    if |fields| == 1 {
      SplitSingleField(fields[0]);
    } else {
      SplitJoin(fields[1..]);
      SplitFirstField(fields[0], Join(fields[1..]));
    }
  }

  lemma TextHasNoComma(n: int)
    ensures NoComma(DecimalText.IntToText(n))
  {
  }

  lemma {:induction false} ParseTexts(list: seq<Int32>)
    ensures ParseFields(Texts(list)) == Some(list)
  {
    if |list| > 0 {
      DecimalText.IntTextRoundTrip(list[0] as int);
      ParseTexts(list[1..]);
      assert Texts(list)[1..] == Texts(list[1..]);
      assert [list[0]] + list[1..] == list;
    }
  }

  /**
   * Storing a list and reading it back gives the same list, in the same
   * order and with its duplicates; SQL NULL round-trips to `null`.
   */
  lemma {:induction false} DecodeEncode(list: Option<seq<Int32>>)
    ensures Decode(Encode(list)) == (if list.None? then NullList else IntegerList(list.value))
  {
    if list.Some? && |list.value| > 0 {
      var texts := Texts(list.value);
      forall i | 0 <= i < |texts| ensures NoComma(texts[i]) {
        TextHasNoComma(list.value[i] as int);
      }
      SplitJoin(texts);
      ParseTexts(list.value);
    }
  }

  lemma {:induction false} CountConcat(a: string, b: string, c: char)
    ensures Count(a + b, c) == Count(a, c) + Count(b, c)
  {
    if |a| == 0 {
      assert a + b == b;
    } else {
      assert (a + b)[1..] == a[1..] + b;
      CountConcat(a[1..], b, c);
    }
  }

  lemma {:induction false} CountNone(s: string)
    requires NoComma(s)
    ensures Count(s, COMMA) == 0
  {
    if |s| > 0 {
      CountNone(s[1..]);
    }
  }

  /** The stored text of an n-element list (n >= 1) holds exactly n - 1 commas. */
  lemma {:induction false} EncodedCommaCount(list: seq<Int32>)
    requires |list| >= 1
    ensures Count(Encode(Some(list)).value, COMMA) == |list| - 1
  {
    var texts := Texts(list);
    TextHasNoComma(list[0] as int);
    CountNone(texts[0]);
    if |list| > 1 {
      EncodedCommaCount(list[1..]);
      assert Texts(list)[1..] == Texts(list[1..]);
      CountConcat(texts[0], [COMMA], COMMA);
      CountConcat(texts[0] + [COMMA], Join(texts[1..]), COMMA);
    }
  }
}
