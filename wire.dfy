/** What the manager writes to the engine's stdin: one command serialised as
    `JSON.stringify` does it, followed by a newline. */
module Wire {
  import opened Types
  import Text

  /** Every character is at or above U+0020, so in particular no line break. */
  predicate Printable(s: string) {
    s == [] || (s[0] >= ' ' && Printable(s[1..]))
  }

  lemma {:induction false} PrintableConcat(a: string, b: string)
    requires Printable(a) && Printable(b)
    ensures Printable(a + b)
  {
    if a == [] {
      assert a + b == b;
    } else {
      PrintableConcat(a[1..], b);
      assert (a + b)[1..] == a[1..] + b;
    }
  }

  lemma {:induction false} PrintableAt(s: string, i: nat)
    requires Printable(s) && i < |s|
    ensures s[i] >= ' '
  {
    if i > 0 {
      PrintableAt(s[1..], i - 1);
    }
  }

  lemma {:induction false} PrintableFromAll(s: string)
    requires forall i :: 0 <= i < |s| ==> s[i] >= ' '
    ensures Printable(s)
  {
    if s != [] {
      PrintableFromAll(s[1..]);
    }
  }

  function HexDigit(d: nat): (c: char)
    requires d < 16
    ensures c >= ' '
  {
    if d < 10 then Text.DigitChar(d) else ('a' as int + d - 10) as char
  }

  /** The escape `JSON.stringify` writes for one character of a string. */
  function EscapeChar(c: char): (r: string)
    ensures Printable(r)
    ensures c >= ' ' && c != '"' && c != '\\' ==> r == [c]
  {
    if c == '"' then "\\\""
    else if c == '\\' then "\\\\"
    else if c == '\n' then "\\n"
    else if c == '\r' then "\\r"
    else if c == '\t' then "\\t"
    else if c == '\U{0008}' then "\\b"
    else if c == '\U{000C}' then "\\f"
    else if c < ' ' then "\\u00" + [HexDigit(c as int / 16), HexDigit(c as int % 16)]
    else [c]
  }

  /** The body of a JSON string literal for `s`. */
  function Escape(s: string): (r: string)
    ensures Printable(r)
    ensures |r| >= |s|
  {
    if s == [] then [] else
      var head := EscapeChar(s[0]);
      var tail := Escape(s[1..]);
      PrintableConcat(head, tail);
      head + tail
  }

  function Quote(s: string): (r: string)
    ensures Printable(r)
  {
    PrintableConcat("\"" + Escape(s), "\"");
    "\"" + Escape(s) + "\""
  }

  /** `,"name":value` for a field that is present, nothing for one that is
      undefined (`JSON.stringify` drops undefined members). */
  function Member(name: string, v: Option<int>): (r: string)
    ensures Printable(r)
    ensures v.None? <==> r == ""
  {
    if v.None? then "" else
      var q := Quote(name);
      var n := Text.IntToString(v.value);
      PrintableFromAll(n);
      PrintableFromAll(",");
      PrintableFromAll(":");
      PrintableConcat(",", q);
      PrintableConcat("," + q, ":");
      PrintableConcat("," + q + ":", n);
      "," + q + ":" + n
  }

  /** `"id":…,"type":…` */
  function Head(c: DaemonCommand): (r: string)
    ensures Printable(r)
  {
    var id := "\"id\":";
    var ty := ",\"type\":";
    PrintableFromAll(id);
    PrintableFromAll(ty);
    PrintableConcat(id, Quote(c.id));
    PrintableConcat(ty, Quote(CommandTypeName(c.kind)));
    PrintableConcat(id + Quote(c.id), ty + Quote(CommandTypeName(c.kind)));
    id + Quote(c.id) + (ty + Quote(CommandTypeName(c.kind)))
  }

  function Pair(a: string, b: string): (r: string)
    requires Printable(a) && Printable(b)
    ensures Printable(r) && r == a + b
  {
    PrintableConcat(a, b);
    a + b
  }

  /** The optional members by name, in the order in which the sources'
      object literals list them. */
  function Fields(a: CommandArgs): seq<(string, Option<int>)> {
    [("x", a.x), ("y", a.y), ("x2", a.x2), ("y2", a.y2), ("duration_ms", a.durationMs),
     ("steps", a.steps), ("screen_width", a.screenWidth), ("screen_height", a.screenHeight)]
  }

  function MemberList(fs: seq<(string, Option<int>)>): (r: string)
    ensures Printable(r)
  {
    if fs == [] then "" else Pair(Member(fs[0].0, fs[0].1), MemberList(fs[1..]))
  }

  /** The members present, each written `,"name":value`. */
  function Members(a: CommandArgs): (r: string)
    ensures Printable(r)
  {
    MemberList(Fields(a))
  }

  /** `JSON.stringify(cmd)`. */
  function Serialize(c: DaemonCommand): (r: string)
    ensures Printable(r)
    ensures |r| >= 2 && r[0] == '{' && r[|r| - 1] == '}'
  {
    PrintableFromAll("{");
    PrintableFromAll("}");
    Pair(Pair("{", Pair(Head(c), Members(c.args))), "}")
  }

  /** The text written to stdin for one command. */
  function Line(c: DaemonCommand): string {
    Serialize(c) + "\n"
  }

  lemma TerminatedOnce(s: string)
    requires Printable(s)
    ensures (s + "\n")[|s|] == '\n'
    ensures forall i :: 0 <= i < |s| ==> (s + "\n")[i] != '\n'
  {
    forall i | 0 <= i < |s|
      ensures (s + "\n")[i] != '\n'
    {
      PrintableAt(s, i);
    }
  }

  /** A written command is exactly one line: it ends in the only newline it
      contains, so the engine's line reader sees it as one message. */
  lemma LineIsOneLine(c: DaemonCommand)
    ensures |Line(c)| >= 3 && Line(c)[|Line(c)| - 1] == '\n'
    ensures forall i :: 0 <= i < |Line(c)| - 1 ==> Line(c)[i] != '\n'
  {
    TerminatedOnce(Serialize(c));
  }
}
