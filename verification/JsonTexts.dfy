/** The text of a JSON object shows where it ends: what json.dumps gives for the arguments of a
    tool call (src/application/kernel/cycle_detector.py, lines 30-37). */
module JsonTexts {
  import opened Texts

  // ---------------------------------------------------------------- where an object ends

  /** The scan is outside of strings, in one, or in one after a backslash. */
  datatype Mode = Outside | Inside | Escaped

  function NextMode(m: Mode, c: char): Mode {
    match m
    case Outside => if c == '"' then Inside else Outside
    case Inside => if c == '"' then Outside else if c == '\\' then Escaped else Inside
    case Escaped => Inside
  }

  function NextDepth(m: Mode, depth: nat, c: char): nat {
    if m == Outside && c == '{' then depth + 1
    else if m == Outside && c == '}' && depth > 0 then depth - 1 else depth
  }

  function Plus(n: nat, r: Option<nat>): Option<nat> {
    match r
    case None => None
    case Some(m) => Some(n + m)
  }

  /** How many characters it takes to the brace that closes the outermost one. */
  function Closes(s: string, depth: nat, m: Mode): Option<nat> {
    if s == "" then None
    else if m == Outside && s[0] == '}' && depth == 1 then Some(1)
    else Plus(1, Closes(s[1..], NextDepth(m, depth, s[0]), NextMode(m, s[0])))
  }

  /** The text of one object: the brace that opens it is closed at its end and not before. */
  predicate IsObject(s: string) {
    s != "" && s[0] == '{' && Closes(s, 0, Outside) == Some(|s|)
  }

  lemma {:induction false} ClosesInFront(s: string, rest: string, depth: nat, m: Mode)
    requires Closes(s, depth, m).Some?
    ensures Closes(s + rest, depth, m) == Closes(s, depth, m)
  {
    assert (s + rest)[1..] == s[1..] + rest && (s + rest)[0] == s[0];
    if !(m == Outside && s[0] == '}' && depth == 1) {
      ClosesInFront(s[1..], rest, NextDepth(m, depth, s[0]), NextMode(m, s[0]));
    }
  }

  /** So two texts that begin with an object begin with the same one and go on alike. */
  lemma {:induction false} ObjectsEnd(a: string, x: string, b: string, y: string)
    requires IsObject(a) && IsObject(b) && a + x == b + y
    ensures a == b && x == y
  {
    ClosesInFront(a, x, 0, Outside);
    ClosesInFront(b, y, 0, Outside);
    assert (a + x)[..|a|] == a && (b + y)[..|b|] == b;
    assert (a + x)[|a|..] == x && (b + y)[|b|..] == y;
  }

  // ---------------------------------------------------------------- what json.dumps writes

  /** A number, true, false or null is a word. */
  datatype Json = Word(text: string) | Text(s: string) | List(items: seq<Json>) | Dict(entries: seq<Entry>)

  datatype Entry = Entry(key: string, value: Json)

  predicate PlainWord(t: string) {
    forall c <- t :: c !in "{}\"\\"
  }

  /** Every word in the value is a plain one. */
  predicate Proper(j: Json) {
    match j
    case Word(t) => PlainWord(t)
    case Text(_) => true
    case List(items) => forall k :: 0 <= k < |items| ==> Proper(items[k])
    case Dict(entries) => forall k :: 0 <= k < |entries| ==> Proper(entries[k].value)
  }

  function HexDigit(n: nat): (c: char)
    requires n < 16
    ensures c !in "\"\\"
  {
    "0123456789abcdef"[n]
  }

  function Unicode(n: nat): string
    requires n < 0x10000
  {
    "\\u" + [HexDigit(n / 4096), HexDigit(n / 256 % 16), HexDigit(n / 16 % 16), HexDigit(n % 16)]
  }

  /** A character in a string; beyond 16 bits it takes two escapes. */
  function Escape(c: char): string {
    var n := c as int;
    if c == '"' then "\\\"" else if c == '\\' then "\\\\" else if c == '\n' then "\\n" else if c == '\r' then "\\r"
    else if c == '\t' then "\\t" else if n == 8 then "\\b" else if n == 12 then "\\f"
    else if 32 <= n < 127 then [c]
    else if n < 0x10000 then Unicode(n)
    else Unicode(0xD800 + (n - 0x10000) / 1024 % 1024) + Unicode(0xDC00 + (n - 0x10000) % 1024)
  }

  function EscapeAll(s: string): string {
    if s == "" then "" else Escape(s[0]) + EscapeAll(s[1..])
  }

  function Quoted(s: string): string {
    "\"" + (EscapeAll(s) + "\"")
  }

  function Dumps(j: Json): string {
    match j
    case Word(t) => t
    case Text(s) => Quoted(s)
    case List(items) => "[" + (DumpItems(items) + "]")
    case Dict(entries) => "{" + (DumpEntries(entries) + "}")
  }

  function DumpItems(items: seq<Json>): string {
    if items == [] then ""
    else Dumps(items[0]) + ((if |items| == 1 then "" else ", ") + DumpItems(items[1..]))
  }

  function DumpEntries(entries: seq<Entry>): string {
    if entries == [] then ""
    else
      Quoted(entries[0].key)
      + (": " + (Dumps(entries[0].value) + ((if |entries| == 1 then "" else ", ") + DumpEntries(entries[1..]))))
  }

  // ---------------------------------------------------------------- and that it is such a text

  type Scan = (string, nat) -> Option<nat>

  /** A scan reads over the text without closing anything. */
  ghost predicate ReadsOver(f: Scan, t: string) {
    forall rest: string, depth: nat :: depth >= 1 ==> f(t + rest, depth) == Plus(|t|, f(rest, depth))
  }

  lemma {:induction false} OverBoth(f: Scan, a: string, b: string)
    requires ReadsOver(f, a) && ReadsOver(f, b)
    ensures ReadsOver(f, a + b)
  {
    forall rest: string, depth: nat | depth >= 1 ensures f(a + b + rest, depth) == Plus(|a + b|, f(rest, depth)) {
      assert a + b + rest == a + (b + rest);
    }
  }

  function Closing(m: Mode): Scan {
    (s, depth) => Closes(s, depth, m)
  }

  /** Reading the text inside an object closes nothing and ends as it began. */
  ghost predicate Neutral(t: string, m: Mode) {
    ReadsOver(Closing(m), t)
  }

  lemma {:induction false} NeutralConcat(a: string, b: string, m: Mode)
    requires Neutral(a, m) && Neutral(b, m)
    ensures Neutral(a + b, m)
  {
    OverBoth(Closing(m), a, b);
  }

  lemma {:induction false} NeutralAt(t: string, rest: string, depth: nat, m: Mode)
    requires Neutral(t, m) && depth >= 1
    ensures Closes(t + rest, depth, m) == Plus(|t|, Closes(rest, depth, m))
  {
    assert Closing(m)(t + rest, depth) == Plus(|t|, Closing(m)(rest, depth));
  }

  lemma {:induction false} NothingIsNeutral(m: Mode)
    ensures Neutral("", m)
  {
    forall rest: string, depth: nat | depth >= 1
      ensures Closes("" + rest, depth, m) == Plus(0, Closes(rest, depth, m))
    {
      assert "" + rest == rest;
    }
  }

  /** One character that neither opens nor closes anything. */
  lemma {:induction false} OneNeutral(c: char, m: Mode)
    requires (m == Outside && c !in "{}\"") || (m == Inside && c !in "\"\\")
    ensures Neutral([c], m)
  {
    forall rest: string, depth: nat | depth >= 1
      ensures Closes([c] + rest, depth, m) == Plus(1, Closes(rest, depth, m))
    {
      assert ([c] + rest)[1..] == rest;
    }
  }

  lemma {:induction false} AllNeutral(t: string, m: Mode)
    requires (m == Outside && forall c <- t :: c !in "{}\"") || (m == Inside && forall c <- t :: c !in "\"\\")
    ensures Neutral(t, m)
  {
    if t == "" {
      NothingIsNeutral(m);
    } else {
      assert t[0] in t && forall c <- t[1..] :: c in t;
      OneNeutral(t[0], m);
      AllNeutral(t[1..], m);
      NeutralConcat([t[0]], t[1..], m);
      assert [t[0]] + t[1..] == t;
    }
  }

  /** A backslash and what it escapes. */
  lemma {:induction false} PairNeutral(c: char)
    ensures Neutral(['\\', c], Inside)
  {
    forall rest: string, depth: nat | depth >= 1
      ensures Closes(['\\', c] + rest, depth, Inside) == Plus(2, Closes(rest, depth, Inside))
    {
      var s := ['\\', c] + rest;
      assert s[1..] == [c] + rest && s[1..][1..] == rest;
      assert Closes(s, depth, Inside) == Plus(1, Closes(s[1..], depth, Escaped));
      assert Closes(s[1..], depth, Escaped) == Plus(1, Closes(rest, depth, Inside));
    }
  }

  lemma {:induction false} UnicodeNeutral(n: nat)
    requires n < 0x10000
    ensures Neutral(Unicode(n), Inside)
  {
    var digits := [HexDigit(n / 4096), HexDigit(n / 256 % 16), HexDigit(n / 16 % 16), HexDigit(n % 16)];
    PairNeutral('u');
    AllNeutral(digits, Inside);
    NeutralConcat("\\u", digits, Inside);
    assert "\\u" == ['\\', 'u'];
  }

  lemma {:induction false} EscapeNeutral(c: char)
    ensures Neutral(Escape(c), Inside)
  {
    var n := c as int;
    var t := Escape(c);
    if |t| == 1 {
      OneNeutral(c, Inside);
    } else if |t| == 2 {
      PairNeutral(t[1]);
      assert t == ['\\', t[1]];
    } else if n < 0x10000 {
      UnicodeNeutral(n);
    } else {
      var high, low := 0xD800 + (n - 0x10000) / 1024 % 1024, 0xDC00 + (n - 0x10000) % 1024;
      UnicodeNeutral(high);
      UnicodeNeutral(low);
      NeutralConcat(Unicode(high), Unicode(low), Inside);
    }
  }

  lemma {:induction false} EscapeAllNeutral(s: string)
    ensures Neutral(EscapeAll(s), Inside)
  {
    if s == "" {
      NothingIsNeutral(Inside);
    } else {
      EscapeNeutral(s[0]);
      EscapeAllNeutral(s[1..]);
      NeutralConcat(Escape(s[0]), EscapeAll(s[1..]), Inside);
    }
  }

  lemma {:induction false} QuotedNeutral(s: string)
    ensures Neutral(Quoted(s), Outside)
  {
    EscapeAllNeutral(s);
    var t := EscapeAll(s);
    forall rest: string, depth: nat | depth >= 1
      ensures Closes(Quoted(s) + rest, depth, Outside) == Plus(|Quoted(s)|, Closes(rest, depth, Outside))
    {
      var all := Quoted(s) + rest;
      NeutralAt(t, "\"" + rest, depth, Inside);
      assert all[0] == '"' && all[1..] == t + ("\"" + rest) && ("\"" + rest)[1..] == rest;
      assert Closes("\"" + rest, depth, Inside) == Plus(1, Closes(rest, depth, Outside));
    }
  }

  /** Braces around a neutral text. */
  lemma {:induction false} BracedNeutral(t: string)
    requires Neutral(t, Outside)
    ensures Neutral("{" + (t + "}"), Outside)
  {
    forall rest: string, depth: nat | depth >= 1
      ensures Closes("{" + (t + "}") + rest, depth, Outside) == Plus(|t| + 2, Closes(rest, depth, Outside))
    {
      var all := "{" + (t + "}") + rest;
      NeutralAt(t, "}" + rest, depth + 1, Outside);
      assert all[0] == '{' && all[1..] == t + ("}" + rest) && ("}" + rest)[1..] == rest;
      assert Closes("}" + rest, depth + 1, Outside) == Plus(1, Closes(rest, depth, Outside));
    }
  }

  lemma {:induction false} DumpsNeutral(j: Json)
    requires Proper(j)
    ensures Neutral(Dumps(j), Outside)
    decreases j
  {
    match j
    case Word(t) => AllNeutral(t, Outside);
    case Text(s) => QuotedNeutral(s);
    case List(items) =>
      ItemsNeutral(items);
      OneNeutral('[', Outside);
      OneNeutral(']', Outside);
      NeutralConcat(DumpItems(items), "]", Outside);
      NeutralConcat("[", DumpItems(items) + "]", Outside);
    case Dict(entries) =>
      EntriesNeutral(entries);
      BracedNeutral(DumpEntries(entries));
  }

  lemma {:induction false} CommaNeutral(last: bool)
    ensures Neutral(if last then "" else ", ", Outside)
  {
    AllNeutral(if last then "" else ", ", Outside);
  }

  lemma {:induction false} ItemsNeutral(items: seq<Json>)
    requires forall k :: 0 <= k < |items| ==> Proper(items[k])
    ensures Neutral(DumpItems(items), Outside)
    decreases items
  {
    if items == [] {
      NothingIsNeutral(Outside);
    } else {
      var comma := if |items| == 1 then "" else ", ";
      DumpsNeutral(items[0]);
      ItemsNeutral(items[1..]);
      CommaNeutral(|items| == 1);
      NeutralConcat(comma, DumpItems(items[1..]), Outside);
      NeutralConcat(Dumps(items[0]), comma + DumpItems(items[1..]), Outside);
    }
  }

  lemma {:induction false} EntriesNeutral(entries: seq<Entry>)
    requires forall k :: 0 <= k < |entries| ==> Proper(entries[k].value)
    ensures Neutral(DumpEntries(entries), Outside)
    decreases entries
  {
    if entries == [] {
      NothingIsNeutral(Outside);
    } else {
      var comma, value, rest := if |entries| == 1 then "" else ", ", Dumps(entries[0].value), DumpEntries(entries[1..]);
      QuotedNeutral(entries[0].key);
      AllNeutral(": ", Outside);
      DumpsNeutral(entries[0].value);
      EntriesNeutral(entries[1..]);
      CommaNeutral(|entries| == 1);
      NeutralConcat(comma, rest, Outside);
      NeutralConcat(value, comma + rest, Outside);
      NeutralConcat(": ", value + (comma + rest), Outside);
      NeutralConcat(Quoted(entries[0].key), ": " + (value + (comma + rest)), Outside);
    }
  }

  /** What is written for a dictionary is the text of one object. */
  lemma {:induction false} DumpsIsObject(entries: seq<Entry>)
    requires Proper(Dict(entries))
    ensures IsObject(Dumps(Dict(entries)))
  {
    var t := DumpEntries(entries);
    var all := "{" + (t + "}");
    EntriesNeutral(entries);
    NeutralAt(t, "}", 1, Outside);
    assert all[1..] == t + "}";
    assert Closes("}", 1, Outside) == Some(1);
    assert Closes(all, 0, Outside) == Plus(1, Closes(t + "}", 1, Outside));
  }
}
