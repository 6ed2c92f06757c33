/**
 * The JavaScript values the core inspects: the fields of a Jira search response
 * and the platform custom field of an issue. Only what the core distinguishes is
 * kept: truthiness, `Array.isArray`, `typeof ... === 'string'`, strict equality
 * with `true`, and conversion with `String(...)`.
 */
module JsonModel {
  import opened Wrappers

  /** A JSON/JavaScript value. Numbers are integers (NaN and fractions are not modelled). */
  datatype JsValue =
    | Undefined
    | Null
    | Bool(b: bool)
    | Num(n: int)
    | Str(s: string)
    | Arr(items: seq<JsValue>)
    | Obj

  /** JavaScript truthiness: `undefined`, `null`, `false`, `0` and `""` are falsy;
      every array (the empty one included) and every object is truthy. */
  predicate Truthy(v: JsValue): (t: bool)
    ensures !t <==> v == Undefined || v == Null || v == Bool(false) || v == Num(0) || v == Str("")
    ensures v.Arr? ==> t
  {
    match v
    case Undefined => false
    case Null => false
    case Bool(b) => b
    case Num(n) => n != 0
    case Str(s) => |s| > 0
    case Arr(_) => true
    case Obj => true
  }

  function DigitChar(d: int): (c: char)
    requires 0 <= d < 10
    ensures '0' <= c <= '9'
    ensures c as int - '0' as int == d
  {
    ('0' as int + d) as char
  }

  predicate AllDigits(s: string) {
    forall i :: 0 <= i < |s| ==> '0' <= s[i] <= '9'
  }

  /** Canonical decimal notation: at least one digit, no leading zero unless the
      text is "0" itself. */
  predicate IsDecimal(s: string) {
    |s| > 0 && AllDigits(s) && (|s| > 1 ==> s[0] != '0')
  }

  /** The natural number a string of decimal digits denotes (the reading side
      of `NatToDecimal`). */
  function DecimalValue(s: string): nat
    requires AllDigits(s)
  {
    if |s| == 0 then 0 else DecimalValue(s[..|s| - 1]) * 10 + (s[|s| - 1] as int - '0' as int)
  }

  /** Decimal notation of a natural number, as `String(n)` prints it. */
  function NatToDecimal(n: nat): (r: string)
    ensures |r| > 0
    ensures forall i :: 0 <= i < |r| ==> '0' <= r[i] <= '9'
    ensures n > 0 ==> r[0] != '0'
    ensures n < 10 <==> |r| == 1
  {
    if n < 10 then [DigitChar(n)] else NatToDecimal(n / 10) + [DigitChar(n % 10)]
  }

  /** Reading back the printed digits gives the number printed. */
  lemma {:induction false} DecimalRoundTrip(n: nat)
    ensures IsDecimal(NatToDecimal(n))
    ensures DecimalValue(NatToDecimal(n)) == n
  {
    var r := NatToDecimal(n);
    if n >= 10 {
      DecimalRoundTrip(n / 10);
      assert r[..|r| - 1] == NatToDecimal(n / 10);
    }
  }

  /** `String(n)` for an integer: a minus sign for a negative number, then the
      canonical decimal digits of its magnitude. */
  function NumText(n: int): (r: string)
    ensures n < 0 <==> |r| > 0 && r[0] == '-'
    ensures n >= 0 ==> IsDecimal(r) && DecimalValue(r) == n
    ensures n < 0 ==> |r| > 1 && IsDecimal(r[1..]) && DecimalValue(r[1..]) == -n
  {
    var m: nat := if n < 0 then -n else n;
    DecimalRoundTrip(m);
    var digits := NatToDecimal(m);
    if n < 0 then assert ("-" + digits)[1..] == digits; "-" + digits else digits
  }

  /** `String(v)`: the text a value is converted to when used as an object key. */
  function ToText(v: JsValue): (r: string)
    ensures v.Str? ==> r == v.s
    ensures v.Num? ==> (v.n < 0 <==> |r| > 0 && r[0] == '-')
    ensures v.Num? ==> |r| > 0
    ensures v.Num? && v.n >= 0 ==> IsDecimal(r) && DecimalValue(r) == v.n
    ensures v.Num? && v.n < 0 ==> |r| > 1 && IsDecimal(r[1..]) && DecimalValue(r[1..]) == -v.n
    ensures v == Undefined ==> r == "undefined"
    ensures v == Null ==> r == "null"
    ensures v == Bool(true) ==> r == "true"
    ensures v == Bool(false) ==> r == "false"
    ensures v == Obj ==> r == "[object Object]"
    ensures v == Arr([]) ==> r == ""
    ensures v.Arr? && |v.items| == 1 && v.items[0].Str? ==> r == v.items[0].s
    decreases v
  {
    match v
    case Undefined => "undefined"
    case Null => "null"
    case Bool(b) => if b then "true" else "false"
    case Num(n) => NumText(n)
    case Str(s) => s
    case Arr(items) => JoinItems(items)
    case Obj => "[object Object]"
  }

  /** `Array.prototype.join(",")`, which `String` applies to arrays: `null` and
      `undefined` elements print as empty text. */
  function JoinItems(items: seq<JsValue>): string
    decreases items
  {
    if |items| == 0 then ""
    else
      var first := if items[0].Undefined? || items[0].Null? then "" else ToText(items[0]);
      if |items| == 1 then first else first + "," + JoinItems(items[1..])
  }

  /** Distinct numbers never share a text, so they never share a table key. */
  lemma {:induction false} NumTextInjective(a: int, b: int)
    requires ToText(Num(a)) == ToText(Num(b))
    ensures a == b
  {
    var ta, tb := ToText(Num(a)), ToText(Num(b));
    if a < 0 {
      assert b < 0;
      assert ta[1..] == tb[1..];
    } else {
      assert b >= 0;
    }
  }

  /** The text one array element contributes to a join. */
  function ItemText(v: JsValue): string {
    if v.Undefined? || v.Null? then "" else ToText(v)
  }

  function ItemTexts(items: seq<JsValue>): (ts: seq<string>)
    ensures |ts| == |items|
    ensures forall i :: 0 <= i < |items| ==> ts[i] == ItemText(items[i])
  {
    if |items| == 0 then [] else [ItemText(items[0])] + ItemTexts(items[1..])
  }

  /** `ts.join(",")` on plain strings, built from the left: the reference
      definition the element-by-element conversion is checked against. */
  function JoinTexts(ts: seq<string>): string {
    if |ts| == 0 then ""
    else if |ts| == 1 then ts[0]
    else JoinTexts(ts[..|ts| - 1]) + "," + ts[|ts| - 1]
  }

  lemma {:induction false} JoinTextsCons(t: string, ts: seq<string>)
    requires |ts| > 0
    ensures JoinTexts([t] + ts) == t + "," + JoinTexts(ts)
  {
    var whole := [t] + ts;
    if |ts| == 1 {
      assert whole[..|whole| - 1] == [t];
    } else {
      var init := ts[..|ts| - 1];
      JoinTextsCons(t, init);
      assert whole[..|whole| - 1] == [t] + init;
    }
  }

  /** `String(array)` is the comma join of its elements' texts, `null` and
      `undefined` elements giving empty text. */
  lemma {:induction false} ToTextArray(items: seq<JsValue>)
    ensures ToText(Arr(items)) == JoinTexts(ItemTexts(items))
    decreases |items|
  {
    if |items| > 1 {
      ToTextArray(items[1..]);
      assert ItemTexts(items) == [ItemText(items[0])] + ItemTexts(items[1..]);
      JoinTextsCons(ItemText(items[0]), ItemTexts(items[1..]));
    }
  }

  /**
   * A Jira issue as the aggregation reads it.
   * `priorityName` is `issue?.fields?.priority?.name`, `None` when that chain
   * yields `null` or `undefined`; `platformField` is
   * `issue?.fields?.customfield_10622`, `Undefined` when it is missing.
   */
  datatype Issue = Issue(priorityName: Option<string>, platformField: JsValue)
}
