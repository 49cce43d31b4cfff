/** The client-side column sort of the dashboard tables: a copy of the page's
    rows is sorted with a comparator built from JavaScript's `<` on the two
    rows' values for the chosen column. */
module ListSort {
  import opened Wrappers
  import opened JsNumber
  import JsString

  /** A JSON value of a row as the API returns it. */
  datatype Value = Str(s: string) | Num(n: real) | Bool(b: bool) | Null | Obj(fields: map<string, Value>)

  /** A value after JavaScript's conversion to a primitive: a string, or a number
      that may be NaN (`None`). */
  datatype Prim = PStr(s: string) | PNum(n: Option<real>)

  datatype SortOrder = Asc | Desc

  /** How a table reads the column value of a row: through a property path
      (`getIn(row, field)`) or as `row[field] || ""`. */
  datatype KeyRule = ByPath(path: seq<string>) | ByFieldOr(field: string)

  /** A property of a value; `None` is `undefined`. */
  function Prop(v: Value, key: string): Option<Value> {
    if v.Obj? && key in v.fields then Some(v.fields[key]) else None
  }

  /** JavaScript falsiness of a possibly undefined value. */
  predicate Falsy(v: Option<Value>) {
    match v
    case None => true
    case Some(x) => x == Str("") || x == Num(0.0) || x == Bool(false) || x == Null
  }

  /** `getIn(obj, path)`: follow the path while the value is truthy; a path cut
      short on a falsy value gives `undefined`. */
  function GetIn(obj: Option<Value>, path: seq<string>): (r: Option<Value>)
    ensures path == [] ==> r == obj
    ensures obj.None? && path != [] ==> r.None?
    decreases |path|
  {
    if path == [] then obj
    else if Falsy(obj) then None
    else GetIn(Prop(obj.value, path[0]), path[1..])
  }

  /** The property path of a field name: its parts between dots, none for "". */
  function ToPath(field: string): (r: seq<string>)
    ensures field == "" ==> r == []
    ensures forall i :: 0 <= i < |r| ==> '.' !in r[i]
  {
    if field == "" then [] else SplitDots(field, "")
  }

  function SplitDots(s: string, part: string): (r: seq<string>)
    requires '.' !in part
    ensures |r| > 0
    ensures forall i :: 0 <= i < |r| ==> '.' !in r[i]
  {
    if s == [] then [part]
    else if s[0] == '.' then [part] + SplitDots(s[1..], "")
    else SplitDots(s[1..], part + [s[0]])
  }

  /** `ToPrimitive`: objects print as "[object Object]"; booleans and null become
      numbers; `undefined` becomes NaN. */
  function ToPrimitive(v: Option<Value>): Prim {
    match v
    case None => PNum(None)
    case Some(Str(s)) => PStr(s)
    case Some(Num(n)) => PNum(Some(n))
    case Some(Bool(b)) => PNum(Some(if b then 1.0 else 0.0))
    case Some(Null) => PNum(Some(0.0))
    case Some(Obj(_)) => PStr(ObjectText)
  }

  function ToNumber(p: Prim): Option<real> {
    match p
    case PStr(s) => NumberOf(s)
    case PNum(n) => n
  }

  /** JavaScript's `a < b` on primitives: two strings compare by characters,
      anything else as numbers, and NaN compares false. */
  predicate Less(a: Prim, b: Prim) {
    if a.PStr? && b.PStr? then JsString.StrLess(a.s, b.s)
    else ToNumber(a).Some? && ToNumber(b).Some? && ToNumber(a).value < ToNumber(b).value
  }

  /** The column value a table compares. */
  function KeyOf(row: Value, rule: KeyRule): Prim {
    match rule
    case ByPath(path) => ToPrimitive(GetIn(Some(row), path))
    case ByFieldOr(field) =>
      var v := Prop(row, field);
      if Falsy(v) then PStr("") else ToPrimitive(v)
  }

  /** The tables' comparator. */
  function Compare(a: Prim, b: Prim, order: SortOrder): (c: int)
    ensures -1 <= c <= 1
    ensures c == 0 <==> !Less(a, b) && !Less(b, a)
  {
    if Less(a, b) then (if order == Asc then -1 else 1)
    else if Less(b, a) then (if order == Asc then 1 else -1)
    else 0
  }

  /** Row `a` must come before row `b`. */
  predicate Before(a: Value, b: Value, rule: KeyRule, order: SortOrder) {
    Compare(KeyOf(a, rule), KeyOf(b, rule), order) < 0
  }

  /** `Before` as a relation the generic sort takes. */
  function BeforeFn(rule: KeyRule, order: SortOrder): (Value, Value) -> bool {
    (a, b) => Before(a, b, rule, order)
  }

  /** Inserts `x` ahead of the first element that does not have to precede it. */
  function InsertBy(x: Value, t: seq<Value>, before: (Value, Value) -> bool): (r: seq<Value>)
    ensures multiset(r) == multiset(t) + multiset{x}
    ensures |r| == |t| + 1
  {
    if t == [] || !before(t[0], x) then [x] + t
    else
      assert t == [t[0]] + t[1..];
      [t[0]] + InsertBy(x, t[1..], before)
  }

  /** The stable insertion sort under `before`, the model of `Array.prototype.sort`. */
  function SortBy(s: seq<Value>, before: (Value, Value) -> bool): (r: seq<Value>)
    ensures multiset(r) == multiset(s)
    ensures |r| == |s|
  {
    if s == [] then []
    else
      assert s == [s[0]] + s[1..];
      InsertBy(s[0], SortBy(s[1..], before), before)
  }

  /** No element comes after one it must precede. */
  predicate SortedBy(t: seq<Value>, before: (Value, Value) -> bool) {
    forall i, j :: 0 <= i < j < |t| ==> !before(t[j], t[i])
  }

  /** `before` is a strict weak order on the elements of `s`: asymmetric,
      transitive, and with a transitive negation. */
  predicate ConsistentBy(s: seq<Value>, before: (Value, Value) -> bool) {
    forall a, b, c :: a in s && b in s && c in s ==>
      (before(a, b) ==> !before(b, a)) &&
      (before(a, b) && before(b, c) ==> before(a, c)) &&
      (!before(a, b) && !before(b, c) ==> !before(a, c))
  }

  /** The rows of a table sorted by a column. */
  function SortRows(rows: seq<Value>, rule: KeyRule, order: SortOrder): (r: seq<Value>)
    ensures multiset(r) == multiset(rows)
  {
    SortBy(rows, BeforeFn(rule, order))
  }

  /** No row comes after one it must precede. */
  predicate Sorted(t: seq<Value>, rule: KeyRule, order: SortOrder) {
    forall i, j :: 0 <= i < j < |t| ==> !Before(t[j], t[i], rule, order)
  }

  /** The comparator orders the rows consistently. */
  predicate Consistent(rows: seq<Value>, rule: KeyRule, order: SortOrder) {
    forall a, b, c :: a in rows && b in rows && c in rows ==>
      (Before(a, b, rule, order) && Before(b, c, rule, order) ==> Before(a, c, rule, order)) &&
      (!Before(a, b, rule, order) && !Before(b, c, rule, order) ==> !Before(a, c, rule, order))
  }

  // ---------------------------------------------------------------------------
  // The generic sort

  lemma {:induction false} InsertSortedBy(x: Value, t: seq<Value>, all: seq<Value>, before: (Value, Value) -> bool)
    requires ConsistentBy(all, before)
    requires x in all && forall y :: y in t ==> y in all
    requires SortedBy(t, before)
    ensures SortedBy(InsertBy(x, t, before), before)
  {
    var r := InsertBy(x, t, before);
    if t == [] || !before(t[0], x) {
      assert r == [x] + t;
      forall j | 0 < j < |r|
        ensures !before(r[j], r[0])
      {
        if j > 1 {
          assert !before(t[j - 1], t[0]);
        }
      }
    } else {
      var rest := InsertBy(x, t[1..], before);
      assert r == [t[0]] + rest;
      assert SortedBy(t[1..], before) by {
        forall i, j | 0 <= i < j < |t[1..]|
          ensures !before(t[1..][j], t[1..][i])
        {
          assert t[1..][j] == t[j + 1] && t[1..][i] == t[i + 1];
        }
      }
      InsertSortedBy(x, t[1..], all, before);
      forall j | 0 < j < |r|
        ensures !before(r[j], r[0])
      {
        var y := rest[j - 1];
        assert y in multiset(rest);
        if y != x {
          assert y in multiset(t[1..]);
          var k :| 0 <= k < |t[1..]| && t[1..][k] == y;
          assert t[k + 1] == y;
        }
      }
    }
  }

  lemma {:induction false} SortedByConsistent(s: seq<Value>, all: seq<Value>, before: (Value, Value) -> bool)
    requires ConsistentBy(all, before)
    requires forall y :: y in s ==> y in all
    ensures SortedBy(SortBy(s, before), before)
  {
    if s != [] {
      var rest := SortBy(s[1..], before);
      SortedByConsistent(s[1..], all, before);
      forall y | y in rest
        ensures y in all
      {
        assert y in multiset(s[1..]);
      }
      InsertSortedBy(s[0], rest, all, before);
    }
  }

  lemma {:induction false} TiedKeepOrder(s: seq<Value>, before: (Value, Value) -> bool)
    requires forall a, b :: a in s && b in s ==> !before(a, b)
    ensures SortBy(s, before) == s
  {
    if s != [] {
      TiedKeepOrder(s[1..], before);
      assert s == [s[0]] + s[1..];
    }
  }

  // ---------------------------------------------------------------------------
  // Lemmas

  lemma StrLessAsymmetric(a: string, b: string)
    requires JsString.StrLess(a, b)
    ensures !JsString.StrLess(b, a)
  {
    if JsString.StrLess(b, a) {
      JsString.StrLessTransitive(a, b, a);
      JsString.StrLessIrreflexive(a);
    }
  }

  /** `<` on primitives never holds both ways. */
  lemma LessAsymmetric(a: Prim, b: Prim)
    requires Less(a, b)
    ensures !Less(b, a)
  {
    if a.PStr? && b.PStr? {
      StrLessAsymmetric(a.s, b.s);
    }
  }

  /** The comparator is antisymmetric, as a sort requires. */
  lemma CompareAntisymmetric(a: Prim, b: Prim, order: SortOrder)
    ensures Compare(a, b, order) == -Compare(b, a, order)
  {
    if Less(a, b) { LessAsymmetric(a, b); }
    if Less(b, a) { LessAsymmetric(b, a); }
  }

  /** In ascending order a row comes first when its value is less; in descending
      order when it is greater. */
  lemma BeforeMeaning(a: Value, b: Value, rule: KeyRule, order: SortOrder)
    ensures order == Asc ==> (Before(a, b, rule, order) <==> Less(KeyOf(a, rule), KeyOf(b, rule)))
    ensures order == Desc ==> (Before(a, b, rule, order) <==> Less(KeyOf(b, rule), KeyOf(a, rule)))
  {
    var ka, kb := KeyOf(a, rule), KeyOf(b, rule);
    if Less(ka, kb) { LessAsymmetric(ka, kb); }
  }

  lemma BeforeAsymmetric(a: Value, b: Value, rule: KeyRule, order: SortOrder)
    requires Before(a, b, rule, order)
    ensures !Before(b, a, rule, order)
  {
    CompareAntisymmetric(KeyOf(a, rule), KeyOf(b, rule), order);
  }

  /** Under a consistent comparator the sort leaves the rows in order. */
  lemma SortSorted(rows: seq<Value>, rule: KeyRule, order: SortOrder)
    requires Consistent(rows, rule, order)
    ensures Sorted(SortRows(rows, rule, order), rule, order)
  {
    var before := BeforeFn(rule, order);
    forall a, b | a in rows && b in rows && Before(a, b, rule, order)
      ensures !Before(b, a, rule, order)
    {
      BeforeAsymmetric(a, b, rule, order);
    }
    SortedByConsistent(rows, rows, before);
  }

  /** Rows none of which must precede another keep their order: the table as
      loaded before any header is clicked. */
  lemma TiedRowsKeepOrder(rows: seq<Value>, rule: KeyRule, order: SortOrder)
    requires forall a, b :: a in rows && b in rows ==> !Before(a, b, rule, order)
    ensures SortRows(rows, rule, order) == rows
  {
    TiedKeepOrder(rows, BeforeFn(rule, order));
  }

  /** Rows that all share one key keep their order. */
  lemma SameKeyKeepsOrder(rows: seq<Value>, rule: KeyRule, order: SortOrder, k: Prim)
    requires !Less(k, k)
    requires forall r :: r in rows ==> KeyOf(r, rule) == k
    ensures SortRows(rows, rule, order) == rows
  {
    TiedRowsKeepOrder(rows, rule, order);
  }

  /** Under a column no row has (or has only falsy values in), every key is ""
      and the rows keep the server's order: the cash and user tables before a
      header is clicked. */
  lemma AbsentFieldKeepsOrder(rows: seq<Value>, field: string, order: SortOrder)
    requires forall r :: r in rows ==> Falsy(Prop(r, field))
    ensures SortRows(rows, ByFieldOr(field), order) == rows
  {
    JsString.StrLessIrreflexive("");
    SameKeyKeepsOrder(rows, ByFieldOr(field), order, PStr(""));
  }

  const ObjectText := "[object Object]"

  /** The empty path reads each row itself, which compares as
      "[object Object]": the invoice table before a header is clicked. */
  lemma EmptyPathKeepsOrder(rows: seq<Value>, order: SortOrder)
    requires forall r :: r in rows ==> r.Obj?
    ensures SortRows(rows, ByPath(ToPath("")), order) == rows
  {
    ObjectTextNotLess();
    ObjectRowsKey(rows);
    SameKeyKeepsOrder(rows, ByPath(ToPath("")), order, PStr(ObjectText));
  }

  lemma ObjectTextNotLess()
    ensures !Less(PStr(ObjectText), PStr(ObjectText))
  {
    JsString.StrLessIrreflexive(ObjectText);
  }

  /** Every object reads as "[object Object]" under the empty path. */
  lemma ObjectRowsKey(rows: seq<Value>)
    requires forall r :: r in rows ==> r.Obj?
    ensures forall r :: r in rows ==> KeyOf(r, ByPath(ToPath(""))) == PStr(ObjectText)
  {
    assert ToPath("") == [];
  }

  /** A column of strings sorts consistently. */
  lemma TextColumnConsistent(rows: seq<Value>, rule: KeyRule, order: SortOrder)
    requires forall a :: a in rows ==> KeyOf(a, rule).PStr?
    ensures Consistent(rows, rule, order)
  {
    forall a, b, c | a in rows && b in rows && c in rows
      ensures (Before(a, b, rule, order) && Before(b, c, rule, order) ==> Before(a, c, rule, order)) &&
              (!Before(a, b, rule, order) && !Before(b, c, rule, order) ==> !Before(a, c, rule, order))
    {
      var x, y, z := KeyOf(a, rule).s, KeyOf(b, rule).s, KeyOf(c, rule).s;
      BeforeMeaning(a, b, rule, order);
      BeforeMeaning(b, c, rule, order);
      BeforeMeaning(a, c, rule, order);
      if order == Asc {
        TextOrder(x, y, z);
      } else {
        TextOrder(z, y, x);
      }
    }
  }

  /** `<` on strings is a strict order whose negation is transitive too. */
  lemma TextOrder(x: string, y: string, z: string)
    ensures JsString.StrLess(x, y) && JsString.StrLess(y, z) ==> JsString.StrLess(x, z)
    ensures !JsString.StrLess(x, y) && !JsString.StrLess(y, z) ==> !JsString.StrLess(x, z)
  {
    if JsString.StrLess(x, y) && JsString.StrLess(y, z) {
      JsString.StrLessTransitive(x, y, z);
    }
    if !JsString.StrLess(x, y) && !JsString.StrLess(y, z) {
      JsString.StrLessTotal(x, y);
      JsString.StrLessTotal(y, z);
      if x != y && y != z {
        JsString.StrLessTransitive(z, y, x);
      }
      if JsString.StrLess(x, z) {
        StrLessAsymmetric(x, z);
        JsString.StrLessIrreflexive(x);
      }
    }
  }

  /** The number a numeric column compares: a number, or 0 for the "" that
      stands for a missing or zero value. */
  predicate NumericKey(p: Prim) {
    (p.PNum? && p.n.Some?) || p == PStr("")
  }

  function NumericValue(p: Prim): real
    requires NumericKey(p)
  {
    if p.PStr? then 0.0 else p.n.value
  }

  lemma NumericLess(p: Prim, q: Prim)
    requires NumericKey(p) && NumericKey(q)
    ensures Less(p, q) <==> NumericValue(p) < NumericValue(q)
  {
    if p.PStr? && q.PStr? {
      JsString.StrLessIrreflexive("");
    }
  }

  /** A column of numbers (with "" for missing ones) sorts consistently. */
  lemma NumericColumnConsistent(rows: seq<Value>, rule: KeyRule, order: SortOrder)
    requires forall a :: a in rows ==> NumericKey(KeyOf(a, rule))
    ensures Consistent(rows, rule, order)
  {
    forall a, b, c | a in rows && b in rows && c in rows
      ensures (Before(a, b, rule, order) && Before(b, c, rule, order) ==> Before(a, c, rule, order)) &&
              (!Before(a, b, rule, order) && !Before(b, c, rule, order) ==> !Before(a, c, rule, order))
    {
      var ka, kb, kc := KeyOf(a, rule), KeyOf(b, rule), KeyOf(c, rule);
      BeforeMeaning(a, b, rule, order);
      BeforeMeaning(b, c, rule, order);
      BeforeMeaning(a, c, rule, order);
      NumericLess(ka, kb); NumericLess(kb, ka);
      NumericLess(kb, kc); NumericLess(kc, kb);
      NumericLess(ka, kc); NumericLess(kc, ka);
    }
  }

  // ---------------------------------------------------------------------------
  // Sort controls

  /** The column and direction a table sorts by; "" is no column. */
  datatype SortState = SortState(field: string, order: SortOrder)

  function Flip(order: SortOrder): SortOrder {
    if order == Asc then Desc else Asc
  }

  /** A click on a column header: the same column flips the direction, another
      column is sorted ascending. */
  function Clicked(s: SortState, f: string): (r: SortState)
    ensures r.field == f
    ensures r.order == Asc || s.field == f
    ensures s.field == f ==> r.order != s.order
  {
    if s.field == f then SortState(f, Flip(s.order)) else SortState(f, Asc)
  }

  /** Clicking the same header twice restores the direction; clicking a new
      header twice sorts it descending. */
  lemma ClickedTwice(s: SortState, f: string)
    ensures s.field == f ==> Clicked(Clicked(s, f), f) == s
    ensures s.field != f ==> Clicked(Clicked(s, f), f) == SortState(f, Desc)
  {
  }

  /** The sort state a table page holds. */
  class SortControl {
    var field: string
    var order: SortOrder

    constructor()
      ensures field == "" && order == Asc
    {
      field := "";
      order := Asc;
    }

    method HandleSort(f: string)
      modifies this
      ensures SortState(field, order) == Clicked(SortState(old(field), old(order)), f)
    {
      if field == f {
        order := Flip(order);
      } else {
        field := f;
        order := Asc;
      }
    }
  }

  datatype SortIcon = Neutral | Up | Down

  /** The icon beside a column header. */
  function IconFor(column: string, field: string, order: SortOrder): (r: SortIcon)
    ensures r == Neutral <==> column != field
    ensures column == field ==> (r == Up <==> order == Asc)
  {
    if field != column then Neutral else if order == Asc then Up else Down
  }
}
