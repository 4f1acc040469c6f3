/** Reading values out of a decoded sheet row (utils/excelParser.ts): the
    alias-list readers of the CSV path (parseNumericValue, parseShareValue)
    and the `a || b || default` chains of the older Excel path. */
module RowReader {
  import opened Types
  import opened Js

  /** A cell that is neither undefined, null nor the empty string. */
  predicate Present(v: Value)
  {
    v != Undefined && v != Null && v != Str("")
  }

  /** A present cell whose text reads as a number. */
  predicate NumericCell(v: Value)
  {
    Present(v) && NumberOf(v).Fin?
  }

  // ---------------------------------------------------------------- CSV path

  /** The number under the first alias whose cell is present and numeric. */
  function FirstNumeric(row: Row, keys: seq<string>): (r: Option<real>)
    ensures r.None? <==> forall k :: 0 <= k < |keys| ==> !NumericCell(Get(row, keys[k]))
    ensures r.Some? ==> exists k :: 0 <= k < |keys| && NumericCell(Get(row, keys[k]))
                          && r.value == NumberOf(Get(row, keys[k])).v
                          && forall j :: 0 <= j < k ==> !NumericCell(Get(row, keys[j]))
  {
    if keys == [] then None
    else if NumericCell(Get(row, keys[0])) then Some(NumberOf(Get(row, keys[0])).v)
    else
      var r := FirstNumeric(row, keys[1..]);
      assert forall k :: 1 <= k < |keys| ==> keys[k] == keys[1..][k - 1];
      if r.Some? then
        ghost var k :| 0 <= k < |keys[1..]| && NumericCell(Get(row, keys[1..][k]))
                       && r.value == NumberOf(Get(row, keys[1..][k])).v
                       && forall j :: 0 <= j < k ==> !NumericCell(Get(row, keys[1..][j]));
        assert NumericCell(Get(row, keys[k + 1]));
        r
      else r
  }

  /** parseNumericValue: the first present numeric alias, else the fallback. */
  function ParseNumericValue(row: Row, keys: seq<string>, fallback: real): (r: real)
    ensures (forall k :: 0 <= k < |keys| ==> !NumericCell(Get(row, keys[k]))) ==> r == fallback
    ensures forall k :: 0 <= k < |keys| && NumericCell(Get(row, keys[k]))
                        && (forall j :: 0 <= j < k ==> !NumericCell(Get(row, keys[j])))
                        ==> r == NumberOf(Get(row, keys[k])).v
  {
    match FirstNumeric(row, keys)
    case Some(x) => x
    case None => fallback
  }

  /** A share written as a fraction (at most 1) is read as a percentage. */
  function ShareScale(x: real): real
  {
    if x <= 1.0 then Round(x * 100.0) as real else x
  }

  /** parseShareValue: the first present numeric alias, scaled; 0 when there is none. */
  function ParseShareValue(row: Row, keys: seq<string>): (r: real)
    ensures (forall k :: 0 <= k < |keys| ==> !NumericCell(Get(row, keys[k]))) ==> r == 0.0
    ensures forall k :: 0 <= k < |keys| && NumericCell(Get(row, keys[k]))
                        && (forall j :: 0 <= j < k ==> !NumericCell(Get(row, keys[j])))
                        ==> r == ShareScale(NumberOf(Get(row, keys[k])).v)
  {
    match FirstNumeric(row, keys)
    case Some(x) => ShareScale(x)
    case None => 0.0
  }

  // ---------------------------------------------------------------- Excel path: `||` chains

  /** The first truthy cell, if any. */
  function FirstTruthy(vs: seq<Value>): (r: Option<Value>)
    ensures r.None? <==> forall k :: 0 <= k < |vs| ==> !Truthy(vs[k])
    ensures r.Some? ==> exists k :: 0 <= k < |vs| && r.value == vs[k] && Truthy(vs[k])
                          && forall j :: 0 <= j < k ==> !Truthy(vs[j])
  {
    if vs == [] then None
    else if Truthy(vs[0]) then Some(vs[0])
    else
      var r := FirstTruthy(vs[1..]);
      assert forall k :: 1 <= k < |vs| ==> vs[k] == vs[1..][k - 1];
      if r.Some? then
        ghost var k :| 0 <= k < |vs[1..]| && r.value == vs[1..][k] && Truthy(vs[1..][k])
                       && forall j :: 0 <= j < k ==> !Truthy(vs[1..][j]);
        assert r.value == vs[k + 1];
        r
      else r
  }

  /** parseFloat(String(row[k1] || ... || row[kn] || d)) where the last operand
      d is already a number (possibly NaN): printing it and reading it back gives d. */
  function OrNumber(row: Row, keys: seq<string>, d: JsNumber): JsNumber
  {
    match FirstTruthy(Cells(row, keys))
    case Some(v) => NumberOf(v)
    case None => d
  }

  /** String(row[k1] || ... || row[kn] || d) for a text default d. */
  function OrText(row: Row, keys: seq<string>, d: string): string
  {
    ToText(OrChain(Cells(row, keys) + [Str(d)]))
  }

  /** Truthiness of a number: NaN and 0 are falsy. */
  predicate JsTruthy(n: JsNumber)
  {
    n.Fin? && n.v != 0.0
  }

  /** `a || b` on numbers. */
  function JsOr(a: JsNumber, b: JsNumber): JsNumber
  {
    if JsTruthy(a) then a else b
  }

  /** `a - b` on numbers; NaN absorbs. */
  function JsSub(a: JsNumber, b: JsNumber): JsNumber
  {
    if a.Fin? && b.Fin? then Fin(a.v - b.v) else NaN
  }

  /** `n || d` for a finite default d. */
  function OrDefault(n: JsNumber, d: real): (r: real)
    ensures JsTruthy(n) ==> r == n.v
    ensures !JsTruthy(n) ==> r == d
  {
    if JsTruthy(n) then n.v else d
  }

  /** isNaN(n) ? 0 : n. */
  function NaNToZero(n: JsNumber): real
  {
    if n.Fin? then n.v else 0.0
  }

  /** A well-formed decoded row: String() of a numeric cell is never empty. */
  predicate WellFormedRow(row: Row)
  {
    forall k :: k in row && row[k].Num? ==> row[k].text != ""
  }

  // ---------------------------------------------------------------- lemmas

  /** Once an alias yields a number, the aliases after it are never consulted. */
  lemma {:induction false} FirstNumericIgnoresLater(row: Row, keys: seq<string>, more: seq<string>)
    requires FirstNumeric(row, keys).Some?
    ensures FirstNumeric(row, keys + more) == FirstNumeric(row, keys)
  {
    if !NumericCell(Get(row, keys[0])) {
      assert (keys + more)[1..] == keys[1..] + more;
      FirstNumericIgnoresLater(row, keys[1..], more);
    }
  }

  /** With no alias yielding a number, the readers fall back. */
  lemma NoAliasFallsBack(row: Row, keys: seq<string>, fallback: real)
    requires forall k :: 0 <= k < |keys| ==> keys[k] !in row
    ensures ParseNumericValue(row, keys, fallback) == fallback
    ensures ParseShareValue(row, keys) == 0.0
  {
    assert forall k :: 0 <= k < |keys| ==> Get(row, keys[k]) == Undefined;
  }

  /** A share read as a fraction and the same share read as a percentage agree:
      0.42 and 42 both give 42. */
  lemma FractionAndPercentAgree()
    ensures ShareScale(0.42) == 42.0
    ensures ShareScale(42.0) == 42.0
  {
    assert 0.42 * 100.0 == 42.0;
  }

  /** A share above 1 is kept as it is; one at most 1 becomes a whole percentage. */
  lemma ShareScaleRange(x: real)
    ensures x > 1.0 ==> ShareScale(x) == x
    ensures 0.0 <= x <= 1.0 ==> 0.0 <= ShareScale(x) <= 100.0 && ShareScale(x) == ShareScale(x).Floor as real
  {
  }

  /** A zero cell under the first alias: the CSV reader accepts it, the
      Excel `||` chain skips it and falls through to its default. */
  lemma ZeroCellDiffers(key: string, d: real)
    requires d != 0.0
    ensures ParseNumericValue(map[key := Num(0.0, "0")], [key], d) == 0.0
    ensures OrNumber(map[key := Num(0.0, "0")], [key], Fin(d)) == Fin(d)
  {
    var row := map[key := Num(0.0, "0")];
    assert Get(row, key) == Num(0.0, "0");
    assert Cells(row, [key]) == [Num(0.0, "0")];
  }

  /** The text chain is empty exactly when no cell in it is truthy. */
  lemma OrTextEmpty(row: Row, keys: seq<string>)
    requires WellFormedRow(row)
    ensures OrText(row, keys, "") == "" <==> forall k :: 0 <= k < |keys| ==> !Truthy(Get(row, keys[k]))
  {
    var vs := Cells(row, keys) + [Str("")];
    var r := OrChain(vs);
    if forall k :: 0 <= k < |keys| ==> !Truthy(Get(row, keys[k])) {
      assert forall k :: 0 <= k < |vs| ==> !Truthy(vs[k]) || k == |vs| - 1;
      OrChainAllFalsy(vs);
    } else {
      var k :| 0 <= k < |keys| && Truthy(Get(row, keys[k]));
      assert Truthy(vs[k]);
      OrChainTruthy(vs, k);
      CellTextNonEmpty(row, keys[k]);
    }
  }

  lemma {:induction false} OrChainAllFalsy(vs: seq<Value>)
    requires |vs| > 0 && forall k :: 0 <= k < |vs| - 1 ==> !Truthy(vs[k])
    ensures OrChain(vs) == vs[|vs| - 1]
  {
    if |vs| > 1 {
      assert forall k :: 0 <= k < |vs[1..]| - 1 ==> vs[1..][k] == vs[k + 1];
      OrChainAllFalsy(vs[1..]);
    }
  }

  lemma {:induction false} OrChainTruthy(vs: seq<Value>, k: int)
    requires 0 <= k < |vs| && Truthy(vs[k])
    ensures Truthy(OrChain(vs))
  {
    if k > 0 && !Truthy(vs[0]) {
      OrChainTruthy(vs[1..], k - 1);
    }
  }

  lemma CellTextNonEmpty(row: Row, key: string)
    requires WellFormedRow(row) && Truthy(Get(row, key))
    ensures ToText(Get(row, key)) != ""
  {
  }

  /** A chain over aliases none of which the row has yields its default. */
  lemma OrNumberAbsent(row: Row, keys: seq<string>, d: JsNumber)
    requires forall k :: 0 <= k < |keys| ==> keys[k] !in row
    ensures OrNumber(row, keys, d) == d
  {
    var vs := Cells(row, keys);
    assert forall k :: 0 <= k < |vs| ==> vs[k] == Undefined;
  }
}
