/** `JSON.stringify` for the records the server embeds in its prompt: string
    quoting with JSON escapes, integers, arrays and objects with their keys in
    insertion order. */
module Json {
  import opened JsString

  function HexDigit(d: nat): char
    requires d < 16
  {
    if d < 10 then ('0' as int + d) as char else ('a' as int + d - 10) as char
  }

  /** The escape JSON.stringify writes for one character: quote, backslash and
      the control characters are escaped, everything else is written as is. */
  function EscapeChar(c: char): string {
    if c == '"' then "\\\""
    else if c == '\\' then "\\\\"
    else if c == '\U{8}' then "\\b"
    else if c == '\t' then "\\t"
    else if c == '\n' then "\\n"
    else if c == '\U{C}' then "\\f"
    else if c == '\r' then "\\r"
    else if (c as int) < 0x20 then "\\u00" + [HexDigit(c as int / 16), HexDigit(c as int % 16)]
    else [c]
  }

  /** A character JSON.stringify copies unchanged. */
  predicate Plain(c: char) {
    c != '"' && c != '\\' && (c as int) >= 0x20
  }

  function Escape(s: string): string {
    if s == [] then [] else EscapeChar(s[0]) + Escape(s[1..])
  }

  lemma {:induction false} EscapeConcat(a: string, b: string)
    ensures Escape(a + b) == Escape(a) + Escape(b)
  {
    if a != [] {
      assert (a + b)[0] == a[0] && (a + b)[1..] == a[1..] + b;
      EscapeConcat(a[1..], b);
      calc {
        Escape(a + b);
        EscapeChar(a[0]) + Escape(a[1..] + b);
        EscapeChar(a[0]) + (Escape(a[1..]) + Escape(b));
        (EscapeChar(a[0]) + Escape(a[1..])) + Escape(b);
      }
    } else {
      assert a + b == b;
    }
  }

  lemma {:induction false} EscapePlain(s: string)
    requires forall i :: 0 <= i < |s| ==> Plain(s[i])
    ensures Escape(s) == s
  {
    if s != [] {
      EscapePlain(s[1..]);
    }
  }

  /** Escaping keeps every occurrence of a text made of plain characters. */
  lemma EscapeKeepsPlainText(s: string, t: string)
    requires Includes(s, t)
    requires forall i :: 0 <= i < |t| ==> Plain(t[i])
    ensures Includes(Escape(s), t)
  {
    var k := IndexOf(s, t, 0);
    assert s == s[..k] + t + s[k + |t|..];
    EscapeConcat(s[..k] + t, s[k + |t|..]);
    EscapeConcat(s[..k], t);
    EscapePlain(t);
    IncludesSelf(t);
    IncludesInConcat(Escape(s[..k]), t, Escape(s[k + |t|..]), t);
  }

  /** A JSON string literal. */
  function Quote(s: string): string {
    "\"" + Escape(s) + "\""
  }

  /** Quoting keeps every occurrence of a text made of plain characters. */
  lemma QuoteKeepsPlainText(s: string, t: string)
    requires Includes(s, t)
    requires forall i :: 0 <= i < |t| ==> Plain(t[i])
    ensures Includes(Quote(s), t)
  {
    EscapeKeepsPlainText(s, t);
    IncludesInConcat("\"", Escape(s), "\"", t);
  }

  /** A JSON array of already serialised items. */
  function Array(items: seq<string>): string {
    "[" + Join(items) + "]"
  }

  lemma ArrayIncludesItem(items: seq<string>, i: nat)
    requires i < |items|
    ensures Includes(Array(items), items[i])
  {
    JoinIncludesItem(items, i);
    IncludesInConcat("[", Join(items), "]", items[i]);
  }

  /** One member of a JSON object, its value already serialised. Keys are the
      fixed identifiers of the records, which need no escaping (EscapePlain). */
  datatype Field = Field(key: string, value: string)

  function FieldText(f: Field): string {
    "\"" + f.key + "\":" + f.value
  }

  /** A JSON object whose members are written in the given order. */
  function Object(fields: seq<Field>): string {
    "{" + Join(seq(|fields|, i requires 0 <= i < |fields| => FieldText(fields[i]))) + "}"
  }

  lemma ObjectIncludesValue(fields: seq<Field>, i: nat)
    requires i < |fields|
    ensures Includes(Object(fields), fields[i].value)
  {
    var texts := seq(|fields|, j requires 0 <= j < |fields| => FieldText(fields[j]));
    IncludesSelf(fields[i].value);
    IncludesInConcat("\"" + fields[i].key + "\":", fields[i].value, "", fields[i].value);
    assert "\"" + fields[i].key + "\":" + fields[i].value + "" == texts[i];
    JoinIncludesItem(texts, i);
    IncludesTrans(Join(texts), texts[i], fields[i].value);
    IncludesInConcat("{", Join(texts), "}", fields[i].value);
  }
}
