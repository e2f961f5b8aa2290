/** JSON values as Python's `json` module produces and consumes them, and the
    text `json.dumps` writes with its default settings (`ensure_ascii=True`,
    separators `", "` and `": "`). Floating-point numbers are not modelled. */
module Json {
  import opened Wrappers
  import Text

  /** A decoded JSON document; an `Object` stands for a Python dict, whose
      keys are distinct and kept in insertion order. */
  datatype Value =
    | Null
    | Bool(b: bool)
    | Int(i: int)
    | Str(s: string)
    | Array(items: seq<Value>)
    | Object(members: seq<(string, Value)>)

  /** `d.get(key)`: the value stored under `key`, if any (the first member
      with that key; a decoded dict has only one, see `GetDistinct`). */
  function Get(members: seq<(string, Value)>, key: string): (r: Option<Value>)
    ensures r.Some? <==> exists i :: 0 <= i < |members| && members[i].0 == key
  {
    if members == [] then None
    else if members[0].0 == key then Some(members[0].1)
    else
      var r := Get(members[1..], key);
      assert forall i :: 1 <= i < |members| ==> members[i] == members[1..][i - 1];
      r
  }

  /** The value found is the one of the first member with that key. */
  lemma {:induction false} GetFound(members: seq<(string, Value)>, key: string)
    requires Get(members, key).Some?
    ensures exists i :: 0 <= i < |members| && members[i] == (key, Get(members, key).value)
                        && forall j :: 0 <= j < i ==> members[j].0 != key
  {
    if members[0].0 != key {
      var v := Get(members, key).value;
      GetFound(members[1..], key);
      var i :| 0 <= i < |members[1..]| && members[1..][i] == (key, v)
               && forall j :: 0 <= j < i ==> members[1..][j].0 != key;
      assert members[i + 1] == (key, v);
      forall j | 0 <= j < i + 1 ensures members[j].0 != key {
        if j > 0 { assert members[j] == members[1..][j - 1]; }
      }
    } else {
      assert members[0] == (key, Get(members, key).value);
    }
  }

  /** The members of a dict as Python holds it: no key occurs twice. */
  predicate DistinctKeys(members: seq<(string, Value)>) {
    forall i, j :: 0 <= i < j < |members| ==> members[i].0 != members[j].0
  }

  /** In a dict with distinct keys, `d.get(k)` is the value stored under `k`. */
  lemma GetDistinct(members: seq<(string, Value)>, i: nat)
    requires DistinctKeys(members) && i < |members|
    ensures Get(members, members[i].0) == Some(members[i].1)
  {
    var r := Get(members, members[i].0);
    GetFound(members, members[i].0);
    var k :| 0 <= k < |members| && members[k] == (members[i].0, r.value)
             && forall j :: 0 <= j < k ==> members[j].0 != members[i].0;
    assert k == i;
  }

  // ---------------------------------------------------------------------
  // json.dumps

  /** Characters `json.dumps` writes: printable ASCII only. */
  predicate Printable(s: string) {
    forall i :: 0 <= i < |s| ==> ' ' <= s[i] <= '~'
  }

  function HexDigit(n: nat): (c: char)
    requires n < 16
    ensures ' ' <= c <= '~'
  {
    if n < 10 then ('0' as int + n) as char else ('a' as int + n - 10) as char
  }

  /** Four lower-case hexadecimal digits of `n`. */
  function Hex4(n: nat): (s: string)
    requires n < 0x1_0000
    ensures |s| == 4 && Printable(s)
  {
    [HexDigit(n / 0x1000), HexDigit(n / 0x100 % 16), HexDigit(n / 16 % 16), HexDigit(n % 16)]
  }

  /** How `json.dumps` writes one character of a string with `ensure_ascii=True`:
      quote, backslash and the five named control characters by their short
      escapes, the rest of printable ASCII as itself, and every other
      character as `\uXXXX` (a surrogate pair above U+FFFF). */
  function EscapeChar(c: char): (s: string)
    ensures Printable(s)
  {
    if c == '"' then "\\\""
    else if c == '\\' then "\\\\"
    else if c == '\n' then "\\n"
    else if c == '\r' then "\\r"
    else if c == '\t' then "\\t"
    else if c == '\U{8}' then "\\b"
    else if c == '\U{C}' then "\\f"
    else if ' ' <= c <= '~' then [c]
    else if c as int < 0x1_0000 then "\\u" + Hex4(c as int)
    else
      var n := c as int - 0x1_0000;
      "\\u" + Hex4(0xD800 + n / 0x400) + "\\u" + Hex4(0xDC00 + n % 0x400)
  }

  function EscapeString(s: string): (r: string)
    ensures Printable(r)
  {
    if s == [] then "" else EscapeChar(s[0]) + EscapeString(s[1..])
  }

  function DumpString(s: string): (r: string)
    ensures Printable(r)
  {
    "\"" + EscapeString(s) + "\""
  }

  /** `json.dumps(v)`. */
  function Dumps(v: Value): (r: string)
    ensures Printable(r)
    ensures v.Object? ==> |r| >= 2 && r[0] == '{' && r[|r| - 1] == '}'
    decreases v, 2
  {
    match v
    case Null => "null"
    case Bool(b) => if b then "true" else "false"
    case Int(i) => IntToPrintable(i)
    case Str(s) => DumpString(s)
    case Array(items) => "[" + DumpItems(v, items) + "]"
    case Object(members) => "{" + DumpMembers(v, members) + "}"
  }

  function IntToPrintable(i: int): (r: string)
    ensures Printable(r)
  {
    var s := Text.IntToString(i);
    assert Printable(s) by {
      forall k | 0 <= k < |s| ensures ' ' <= s[k] <= '~' {
        IntToStringDigitsOrMinus(i, k);
      }
    }
    s
  }

  lemma IntToStringDigitsOrMinus(i: int, k: nat)
    requires k < |Text.IntToString(i)|
    ensures Text.IntToString(i)[k] == '-' || Text.IsDigit(Text.IntToString(i)[k])
  {
    if i < 0 && k > 0 {
      assert Text.IntToString(i)[k] == Text.NatToString(-i)[k - 1];
    }
  }

  /** The items of an array, separated by `", "`. */
  function DumpItems(ghost parent: Value, items: seq<Value>): (r: string)
    requires forall j :: 0 <= j < |items| ==> items[j] < parent
    ensures Printable(r)
    decreases parent, 1, |items|
  {
    if items == [] then ""
    else if |items| == 1 then Dumps(items[0])
    else Dumps(items[0]) + ", " + DumpItems(parent, items[1..])
  }

  /** The members of an object, written `"key": value` and separated by `", "`. */
  function DumpMembers(ghost parent: Value, members: seq<(string, Value)>): (r: string)
    requires forall j :: 0 <= j < |members| ==> members[j].1 < parent
    ensures Printable(r)
    decreases parent, 1, |members|
  {
    if members == [] then ""
    else
      var m := DumpString(members[0].0) + ": " + Dumps(members[0].1);
      if |members| == 1 then m else m + ", " + DumpMembers(parent, members[1..])
  }

  /** The serialiser never writes a raw newline, so newline-joined dumps can be
      told apart again. */
  lemma DumpsHasNoNewline(v: Value)
    ensures '\n' !in Dumps(v)
  {
    var r := Dumps(v);
    forall i | 0 <= i < |r| ensures r[i] != '\n' { }
  }
}
