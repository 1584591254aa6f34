/** `JSON.stringify(value, null, 2)` for the values the backend serialises: strings, arrays and
    objects whose members keep their insertion order. */
module Json {

  datatype Json = JString(s: string) | JArray(items: seq<Json>) | JObject(members: seq<Member>)

  datatype Member = Member(key: string, value: Json)

  /** Two lower-case hexadecimal digits of a code below 256. */
  function Hex2(n: nat): (r: string)
    requires n < 256
    ensures |r| == 2
  {
    var digits := "0123456789abcdef";
    [digits[n / 16], digits[n % 16]]
  }

  /** How `JSON.stringify` writes one character inside a string literal. */
  function EscapeChar(c: char): (r: string)
    ensures |r| > 0
    ensures r == [c] || r[0] == '\\'
  {
    if c == '"' then "\\\""
    else if c == '\\' then "\\\\"
    else if c == '\U{8}' then "\\b"
    else if c == '\t' then "\\t"
    else if c == '\n' then "\\n"
    else if c == '\U{C}' then "\\f"
    else if c == '\r' then "\\r"
    else if c < ' ' then "\\u00" + Hex2(c as nat)
    else [c]
  }

  function Escape(s: string): string {
    if s == [] then [] else EscapeChar(s[0]) + Escape(s[1..])
  }

  /** A string literal: the escaped text between double quotes. */
  function Quote(s: string): (r: string)
    ensures |r| >= 2 && r[0] == '"' && r[|r| - 1] == '"'
  {
    "\"" + Escape(s) + "\""
  }

  function Indent(n: nat): (r: string)
    ensures |r| == n && forall i :: 0 <= i < n ==> r[i] == ' '
  {
    seq(n, _ => ' ')
  }

  /** The text of `v` when it sits at nesting depth `level` (in spaces). */
  function Render(v: Json, level: nat): string
    decreases v
  {
    match v
    case JString(s) => Quote(s)
    case JArray(items) =>
      if items == [] then "[]"
      else "[\n" + Items(items, level + 2) + "\n" + Indent(level) + "]"
    case JObject(members) =>
      if members == [] then "{}"
      else "{\n" + Members(members, level + 2) + "\n" + Indent(level) + "}"
  }

  /** Array elements, one per line at `level`, separated by commas. */
  function Items(items: seq<Json>, level: nat): string
    requires items != []
    decreases items
  {
    Indent(level) + Render(items[0], level) +
    (if |items| == 1 then "" else ",\n" + Items(items[1..], level))
  }

  /** Object members `"key": value`, one per line at `level`, separated by commas. */
  function Members(members: seq<Member>, level: nat): string
    requires members != []
    decreases members
  {
    Indent(level) + Quote(members[0].key) + ": " + Render(members[0].value, level) +
    (if |members| == 1 then "" else ",\n" + Members(members[1..], level))
  }

  /** `JSON.stringify(v, null, 2)`. */
  function Stringify(v: Json): string {
    Render(v, 0)
  }

  /** No string and no key anywhere in `v` holds the character `c`. */
  predicate Free(v: Json, c: char)
    decreases v
  {
    match v
    case JString(s) => c !in s
    case JArray(items) => forall i :: 0 <= i < |items| ==> Free(items[i], c)
    case JObject(members) =>
      forall i :: 0 <= i < |members| ==> c !in members[i].key && Free(members[i].value, c)
  }

  /** Escaping adds only the characters of the escape sequences themselves. */
  lemma {:induction false} EscapeKeeps(s: string, c: char)
    requires c !in s
    requires c !in "\\\"bfnrtu0123456789abcdef"
    ensures c !in Escape(s)
  {
    if s != [] {
      EscapeKeeps(s[1..], c);
      var e := EscapeChar(s[0]);
      if s[0] < ' ' && s[0] !in {'\U{8}', '\t', '\n', '\U{C}', '\r'} {
        assert e == "\\u00" + Hex2(s[0] as nat);
      }
    }
  }

  /** A character that is not part of the layout or of an escape sequence appears in the text
      of a value only if some string or key in the value holds it; in particular a value whose
      strings hold no backquote renders without one. */
  lemma {:induction false} RenderKeeps(v: Json, level: nat, c: char)
    requires Free(v, c)
    requires c !in "\\\"bfnrtu0123456789abcdef{}[],: \n"
    ensures c !in Render(v, level)
    decreases v
  {
    match v
    case JString(s) => EscapeKeeps(s, c);
    case JArray(items) => if items != [] { ItemsKeep(items, level + 2, c); }
    case JObject(members) => if members != [] { MembersKeep(members, level + 2, c); }
  }

  lemma {:induction false} ItemsKeep(items: seq<Json>, level: nat, c: char)
    requires items != []
    requires forall i :: 0 <= i < |items| ==> Free(items[i], c)
    requires c !in "\\\"bfnrtu0123456789abcdef{}[],: \n"
    ensures c !in Items(items, level)
    decreases items
  {
    RenderKeeps(items[0], level, c);
    if |items| > 1 {
      ItemsKeep(items[1..], level, c);
    }
  }

  lemma {:induction false} MembersKeep(members: seq<Member>, level: nat, c: char)
    requires members != []
    requires forall i :: 0 <= i < |members| ==> c !in members[i].key && Free(members[i].value, c)
    requires c !in "\\\"bfnrtu0123456789abcdef{}[],: \n"
    ensures c !in Members(members, level)
    decreases members
  {
    EscapeKeeps(members[0].key, c);
    RenderKeeps(members[0].value, level, c);
    if |members| > 1 {
      MembersKeep(members[1..], level, c);
    }
  }

  /** The text of an object opens with `{` and closes with `}`, so it has no white space at
      either end. */
  lemma ObjectBraces(members: seq<Member>)
    ensures var t := Stringify(JObject(members));
            |t| >= 2 && t[0] == '{' && t[|t| - 1] == '}'
  {
  }
}
