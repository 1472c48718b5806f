/** JSON texts as the decoder accepts them (sections 2 to 7 of RFC 8259), and the two-mode lexer
    that tells inside a string from outside. Characters stand for bytes. */
module JsonText {
  import opened GoText

  // ----- grammar: a value together with the exact characters it was written with -----

  /** `\u` and its four digits are an escape followed by four plain characters. */
  datatype Item = Plain(c: char) | Escape(c: char)

  datatype Name = Name(before: string, items: seq<Item>, after: string)

  datatype Value = Scalar(token: string) | Text(items: seq<Item>) | Array(body: Body) | Object(body: Body)

  datatype Body = Empty(ws: string) | One(entry: Entry) | More(entry: Entry, rest: Body)

  /** One array element, or one object member when it has a name, with its padding. */
  datatype Entry = Entry(name: Option<Name>, before: string, value: Value, after: string)

  predicate IsWs(s: string) { forall i :: 0 <= i < |s| ==> s[i] in {' ', '\t', '\n', '\r'} }

  /** Numbers are over-approximated by the characters they may contain. */
  predicate IsScalar(s: string) {
    || s in {"true", "false", "null"}
    || (s != "" && forall i :: 0 <= i < |s| ==> '0' <= s[i] <= '9' || s[i] in {'-', '+', '.', 'e', 'E'})
  }

  predicate ItemsOk(items: seq<Item>) {
    forall i :: 0 <= i < |items| && items[i].Plain? ==> items[i].c != '\"' && items[i].c != '\\'
  }

  predicate ValueOk(v: Value) {
    match v
    case Scalar(t) => IsScalar(t)
    case Text(items) => ItemsOk(items)
    case Array(b) => BodyOk(b, false)
    case Object(b) => BodyOk(b, true)
  }

  predicate BodyOk(b: Body, named: bool) {
    match b
    case Empty(ws) => IsWs(ws)
    case One(e) => EntryOk(e, named)
    case More(e, rest) => EntryOk(e, named) && !rest.Empty? && BodyOk(rest, named)
  }

  predicate EntryOk(e: Entry, named: bool) {
    && e.name.Some? == named
    && (named ==> IsWs(e.name.value.before) && IsWs(e.name.value.after) && ItemsOk(e.name.value.items))
    && IsWs(e.before) && IsWs(e.after) && ValueOk(e.value)
  }

  function ShowItems(items: seq<Item>): string {
    if items == [] then ""
    else (if items[0].Plain? then [items[0].c] else ['\\', items[0].c]) + ShowItems(items[1..])
  }

  function Quoted(items: seq<Item>): string { "\"" + ShowItems(items) + "\"" }

  function ShowValue(v: Value): string {
    match v
    case Scalar(t) => t
    case Text(items) => Quoted(items)
    case Array(b) => "[" + ShowBody(b) + "]"
    case Object(b) => "{" + ShowBody(b) + "}"
  }

  function ShowBody(b: Body): string {
    match b
    case Empty(ws) => ws
    case One(e) => ShowEntry(e)
    case More(e, rest) => ShowEntry(e) + "," + ShowBody(rest)
  }

  function ShowName(n: Name): string { n.before + Quoted(n.items) + n.after + ":" }

  function ShowEntry(e: Entry): string {
    (if e.name.Some? then ShowName(e.name.value) else "") + e.before + ShowValue(e.value) + e.after
  }

  ghost predicate Writes(s: string, before: string, v: Value, after: string) {
    IsWs(before) && IsWs(after) && ValueOk(v) && s == before + ShowValue(v) + after
  }

  ghost predicate IsJsonText(s: string) {
    exists before, v, after :: Writes(s, before, v, after)
  }

  // ----- lexer -----

  /** Outside a string, inside one, just after a backslash, or dead: a `|` or `\` outside strings. */
  datatype Mode = Outside | Inside | Escaped | Dead

  function Step(q: Mode, c: char): Mode {
    match q
    case Outside => if c == '\"' then Inside else if c == '\\' || c == '|' then Dead else Outside
    case Inside => if c == '\"' then Outside else if c == '\\' then Escaped else Inside
    case Escaped => Inside
    case Dead => Dead
  }

  function Run(q: Mode, s: string): Mode
    decreases |s|
  {
    if s == [] then q else Run(Step(q, s[0]), s[1..])
  }

  lemma {:induction false} RunConcat(q: Mode, a: string, b: string)
    ensures Run(q, a + b) == Run(Run(q, a), b)
    decreases |a|
  {
    if a == [] {
      assert a + b == b;
    } else {
      assert (a + b)[1..] == a[1..] + b;
      RunConcat(Step(q, a[0]), a[1..], b);
    }
  }

  /** Starts and ends outside strings. */
  predicate Balanced(s: string) { Run(Outside, s) == Outside }

  lemma BalancedConcat(a: string, b: string)
    requires Balanced(a) && Balanced(b)
    ensures Balanced(a + b)
  {
    RunConcat(Outside, a, b);
  }

  lemma {:induction false} BalancedQuiet(s: string)
    requires forall i :: 0 <= i < |s| ==> s[i] != '\"' && s[i] != '\\' && s[i] != '|'
    ensures Balanced(s)
  {
    if s != [] { BalancedQuiet(s[1..]); }
  }

  lemma {:induction false} ItemsStayInside(items: seq<Item>)
    requires ItemsOk(items)
    ensures Run(Inside, ShowItems(items)) == Inside
  {
    if items != [] {
      var head := if items[0].Plain? then [items[0].c] else ['\\', items[0].c];
      assert Run(Inside, head) == Inside by {
        if items[0].Escape? {
          assert head[1..] == [items[0].c];
          assert Run(Escaped, [items[0].c]) == Run(Inside, []);
        }
      }
      RunConcat(Inside, head, ShowItems(items[1..]));
      ItemsStayInside(items[1..]);
    }
  }

  lemma BalancedQuoted(items: seq<Item>)
    requires ItemsOk(items)
    ensures Balanced(Quoted(items))
  {
    ItemsStayInside(items);
    RunConcat(Outside, "\"", ShowItems(items));
    RunConcat(Outside, "\"" + ShowItems(items), "\"");
  }

  lemma {:induction false} BalancedValue(v: Value)
    requires ValueOk(v)
    ensures Balanced(ShowValue(v))
  {
    match v
    case Scalar(t) => BalancedQuiet(t);
    case Text(items) => BalancedQuoted(items);
    case Array(b) =>
      BalancedBody(b, false);
      BalancedConcat("[", ShowBody(b));
      BalancedConcat("[" + ShowBody(b), "]");
    case Object(b) =>
      BalancedBody(b, true);
      BalancedConcat("{", ShowBody(b));
      BalancedConcat("{" + ShowBody(b), "}");
  }

  lemma {:induction false} BalancedBody(b: Body, named: bool)
    requires BodyOk(b, named)
    ensures Balanced(ShowBody(b))
  {
    match b
    case Empty(ws) => BalancedQuiet(ws);
    case One(e) => BalancedEntry(e, named);
    case More(e, rest) =>
      BalancedEntry(e, named);
      BalancedConcat(ShowEntry(e), ",");
      BalancedBody(rest, named);
      BalancedConcat(ShowEntry(e) + ",", ShowBody(rest));
  }

  lemma {:induction false} BalancedEntry(e: Entry, named: bool)
    requires EntryOk(e, named)
    ensures Balanced(ShowEntry(e))
  {
    var head := if e.name.Some? then ShowName(e.name.value) else "";
    if e.name.Some? {
      var n := e.name.value;
      BalancedQuiet(n.before);
      BalancedQuoted(n.items);
      BalancedQuiet(n.after);
      BalancedConcat(n.before, Quoted(n.items));
      BalancedConcat(n.before + Quoted(n.items), n.after);
      BalancedConcat(n.before + Quoted(n.items) + n.after, ":");
    }
    BalancedQuiet(e.before);
    BalancedQuiet(e.after);
    BalancedValue(e.value);
    BalancedConcat(head, e.before);
    BalancedConcat(head + e.before, ShowValue(e.value));
    BalancedConcat(head + e.before + ShowValue(e.value), e.after);
  }

  /** A JSON text keeps every `|` and `\` inside strings and ends outside them. */
  lemma JsonIsBalanced(s: string)
    requires IsJsonText(s)
    ensures Balanced(s)
  {
    var before, v, after :| Writes(s, before, v, after);
    BalancedQuiet(before);
    BalancedQuiet(after);
    BalancedValue(v);
    BalancedConcat(before, ShowValue(v));
    BalancedConcat(before + ShowValue(v), after);
  }

  lemma {:induction false} DeadStaysDead(s: string)
    ensures Run(Dead, s) == Dead
  {
    if s != [] { DeadStaysDead(s[1..]); }
  }

  /** Two lexers reading the same characters, one started inside a string and one outside, stay in
      opposite modes for as long as both live; so they cannot both finish outside. */
  lemma {:induction false} Lockstep(s: string, q: Mode, r: Mode)
    requires (q == Inside && r == Outside) || (q == Outside && r == Inside)
    ensures Run(q, s) != Outside || Run(r, s) != Outside
    decreases |s|
  {
    if s != [] {
      if Step(q, s[0]) == Dead || Step(r, s[0]) == Dead {
        DeadStaysDead(s[1..]);
      } else {
        Lockstep(s[1..], Step(q, s[0]), Step(r, s[0]));
      }
    }
  }

  /** No proper tail that follows a `|` of a JSON text is itself a JSON text. */
  lemma NoTailAfterBar(w: string, r: string)
    requires Balanced(w + "|" + r)
    ensures !Balanced(r)
  {
    RunConcat(Outside, w + "|", r);
    RunConcat(Outside, w, "|");
    DeadStaysDead(r);
    Lockstep(r, Inside, Outside);
  }
}
