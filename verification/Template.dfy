/**
 The `{{ expr }}` templates of pipeline files
 (crates/loadsmith-config/src/template.rs): parsing, and the two passes, scan
 and substitute, over a value tree.

 A text is parsed into literals and expressions. The scan finds the `secret()`
 calls of a tree without evaluating anything; the substitution evaluates. What
 the first promises the second: no syntax error is left, and no call that was
 not reported. What the second promises by itself: keys, tags and order stay, a
 text becomes its literals and the values looked up, verbatim, and what these
 values hold has no part in whether it succeeds.
 */
module Template {
  import opened Wrappers
  import opened Text

  datatype SecretRef = SecretRef(instance: string, reference: string)
  datatype Expr = Env(name: string) | File(path: string) | Secret(call: SecretRef)
  datatype Piece = Literal(text: string) | Code(expr: Expr)

  /** Syntax covers every error found without evaluating anything. */
  datatype Error = Syntax | NotSet(name: string) | NotReadable(path: string) | NotResolved(call: SecretRef) | NotAvailable(call: SecretRef)

  // ----- searching ---------------------------------------------------------------------

  /** Where `pattern` first occurs. */
  function Find(s: string, pattern: string): (k: Option<nat>)
    requires pattern != ""
    ensures k.Some? ==> k.value + |pattern| <= |s| && s[k.value..k.value + |pattern|] == pattern
    ensures k.Some? ==> forall i :: 0 <= i < k.value ==> !(pattern <= s[i..])
    ensures k.None? ==> forall i :: 0 <= i <= |s| ==> !(pattern <= s[i..])
    decreases |s|
  {
    if pattern <= s then
      assert s[0..] == s;
      Some(0)
    else if s == "" then None
    else
      DropsOfTail(s);
      match Find(s[1..], pattern)
      case None => None
      case Some(k) => SliceOfTail(s, k, |pattern|); Some(k + 1)
  }

  lemma SliceOfTail(s: string, k: nat, n: nat)
    requires s != "" && k + n <= |s[1..]|
    ensures s[k + 1..k + 1 + n] == s[1..][k..k + n]
  {
  }

  lemma DropsOfTail(s: string)
    requires s != ""
    ensures forall i :: 1 <= i <= |s| ==> s[i..] == s[1..][i - 1..]
  {
  }

  // ----- parsing -----------------------------------------------------------------------

  /** A comma-separated list of quoted literals; `rest` starts at a quote. */
  function ParseQuoted(rest: string): (r: Result<seq<string>, Error>)
    ensures r.Ok? ==> |r.value| >= 1
    ensures r.Err? ==> r.error == Syntax
    decreases |rest|
  {
    if rest == "" || (rest[0] != '\'' && rest[0] != '\"') then Err(Syntax)
    else
      match Find(rest[1..], [rest[0]])
      case None => Err(Syntax)
      case Some(end) =>
        var value := rest[1..][..end];
        var more := TrimStart(rest[1..][end + 1..]);
        if more == "" then Ok([value])
        else if more[0] != ',' then Err(Syntax)
        else
          TrimStartShrinks(rest[1..][end + 1..]);
          TrimStartShrinks(more[1..]);
          match ParseQuoted(TrimStart(more[1..]))
          case Err(e) => Err(e)
          case Ok(values) => Ok([value] + values)
  }

  lemma {:induction false} TrimStartShrinks(s: string)
    ensures |TrimStart(s)| <= |s|
    decreases |s|
  {
    if s != "" && IsSpace(s[0]) { TrimStartShrinks(s[1..]); }
  }

  function ParseArgs(s: string): (r: Result<seq<string>, Error>)
    ensures r.Err? ==> r.error == Syntax
  {
    if Trim(s) == "" then Ok([]) else ParseQuoted(Trim(s))
  }

  /** One expression, between its braces. */
  function ParseExpr(expr: string): (r: Result<Expr, Error>)
    ensures r.Err? ==> r.error == Syntax
  {
    match Find(expr, "(")
    case None => Err(Syntax)
    case Some(paren) =>
      var name := Trim(expr[..paren]);
      var tail := TrimEnd(expr[paren + 1..]);
      if tail == "" || tail[|tail| - 1] != ')' || name !in {"env", "file", "secret"} then Err(Syntax)
      else
        match ParseArgs(tail[..|tail| - 1])
        case Err(e) => Err(e)
        case Ok(args) =>
          if name == "secret" then
            if |args| != 2 || args[0] == "" || args[1] == "" then Err(Syntax)
            else Ok(Secret(SecretRef(args[0], args[1])))
          else if |args| != 1 then Err(Syntax)
          else if name == "env" then Ok(Env(args[0]))
          else Ok(File(args[0]))
  }

  function LiteralPiece(text: string): seq<Piece> { if text == "" then [] else [Literal(text)] }

  /** A template as literal text and expressions. */
  function ParseTemplate(s: string): (r: Result<seq<Piece>, Error>)
    ensures r.Err? ==> r.error == Syntax
    decreases |s|
  {
    match Find(s, "{{")
    case None => Ok(LiteralPiece(s))
    case Some(open) =>
      var after := s[open + 2..];
      match Find(after, "}}")
      case None => Err(Syntax)
      case Some(close) =>
        match ParseExpr(Trim(after[..close]))
        case Err(e) => Err(e)
        case Ok(e) =>
          match ParseTemplate(after[close + 2..])
          case Err(e) => Err(e)
          case Ok(pieces) => Ok(LiteralPiece(s[..open]) + [Code(e)] + pieces)
  }

  /** The pieces read so far, before what the rest of the template holds. */
  function After(pieces: seq<Piece>, rest: Result<seq<Piece>, Error>): Result<seq<Piece>, Error> {
    match rest
    case Err(e) => Err(e)
    case Ok(more) => Ok(pieces + more)
  }

  lemma AfterAfter(a: seq<Piece>, b: seq<Piece>, rest: Result<seq<Piece>, Error>)
    ensures After(a, After(b, rest)) == After(a + b, rest)
  {
    if rest.Ok? { assert a + (b + rest.value) == a + b + rest.value; }
  }

  method ParseTemplateLoop(input: string) returns (r: Result<seq<Piece>, Error>)
    ensures r == ParseTemplate(input)
  {
    hide Find, ParseExpr, Trim;
    var pieces: seq<Piece> := [];
    var rest := input;
    var open := Find(rest, "{{");
    assert ParseTemplate(input).Ok? ==> [] + ParseTemplate(input).value == ParseTemplate(input).value;
    while open.Some?
      invariant open == Find(rest, "{{")
      invariant ParseTemplate(input) == After(pieces, ParseTemplate(rest))
      decreases |rest|
    {
      ghost var (was, before) := (pieces, rest);
      if open.value > 0 {
        pieces := pieces + [Literal(rest[..open.value])];
      }
      var after := rest[open.value + 2..];
      var close := Find(after, "}}");
      if close.None? {
        return Err(Syntax);
      }
      var parsed := ParseExpr(Trim(after[..close.value]));
      if parsed.Err? {
        return Err(parsed.error);
      }
      pieces := pieces + [Code(parsed.value)];
      rest := after[close.value + 2..];
      assert pieces == was + (LiteralPiece(before[..open.value]) + [Code(parsed.value)]);
      AfterAfter(was, LiteralPiece(before[..open.value]) + [Code(parsed.value)], ParseTemplate(rest));
      assert ParseTemplate(before) == After(LiteralPiece(before[..open.value]) + [Code(parsed.value)], ParseTemplate(rest));
      open := Find(rest, "{{");
    }
    assert pieces + [] == pieces;
    if rest != "" {
      pieces := pieces + [Literal(rest)];
    }
    r := Ok(pieces);
  }

  // ----- a call written out is read back ------------------------------------------------

  function Display(call: SecretRef): string {
    "secret('" + call.instance + "', '" + call.reference + "')"
  }

  lemma FindsFirst(s: string, pattern: string, k: nat)
    requires pattern != "" && k + |pattern| <= |s| && pattern <= s[k..]
    requires forall i :: 0 <= i < k ==> !(pattern <= s[i..])
    ensures Find(s, pattern) == Some(k)
  {
    hide Find;
    var r := Find(s, pattern);
    if r.Some? {
      SliceIsStart(s, r.value, pattern);
    }
  }

  lemma SliceIsStart(s: string, k: nat, pattern: string)
    requires k + |pattern| <= |s| && s[k..k + |pattern|] == pattern
    ensures pattern <= s[k..]
  {
    assert s[k..][..|pattern|] == s[k..k + |pattern|];
  }

  /** The first quote of a text that begins with quote-free `a`, then a quote. */
  lemma FindsQuote(a: string, rest: string)
    requires '\'' !in a
    ensures Find(a + "'" + rest, "'") == Some(|a|)
  {
    var s := a + "'" + rest;
    assert s[|a|..] == "'" + rest;
    forall i | 0 <= i < |a| ensures !("'" <= s[i..]) {
      assert s[i] == a[i] && s[i..][0] == s[i];
    }
    FindsFirst(s, "'", |a|);
  }

  /** A quoted literal at the head of an argument list. */
  lemma QuotedHead(a: string, rest: string)
    requires '\'' !in a
    ensures ParseQuoted("'" + a + "'" + rest)
            == (var more := TrimStart(rest);
                if more == "" then Ok([a])
                else if more[0] != ',' then Err(Syntax)
                else match ParseQuoted(TrimStart(more[1..])) case Err(e) => Err(e) case Ok(values) => Ok([a] + values))
  {
    var s := "'" + a + "'" + rest;
    assert s[1..] == a + "'" + rest;
    FindsQuote(a, rest);
    assert (a + "'" + rest)[..|a|] == a && (a + "'" + rest)[|a| + 1..] == rest;
  }

  lemma NoSpaceToTrim(s: string)
    requires s != "" && !IsSpace(s[0]) && !IsSpace(s[|s| - 1])
    ensures TrimStart(s) == s && TrimEnd(s) == s && Trim(s) == s
  {
  }

  lemma LastQuoted(b: string)
    requires '\'' !in b
    ensures ParseQuoted("'" + b + "'") == Ok([b])
  {
    QuotedHead(b, "");
    assert "'" + b + "'" + "" == "'" + b + "'";
  }

  /** White space is dropped before the second literal. */
  lemma SecondIsTrimmed(b: string)
    ensures var tail := ", '" + b + "'";
            tail != "" && TrimStart(tail) == tail && tail[0] == ',' && TrimStart(tail[1..]) == "'" + b + "'"
  {
    var tail := ", '" + b + "'";
    assert tail[1..] == " " + ("'" + b + "'");
    assert tail[1..][1..] == "'" + b + "'";
  }

  /** Two quote-free literals are read back as they are. */
  lemma TwoQuoted(a: string, b: string)
    requires '\'' !in a && '\'' !in b
    ensures ParseArgs("'" + a + "', '" + b + "'") == Ok([a, b])
  {
    hide ParseQuoted, TrimStart, TrimEnd;
    var tail := ", '" + b + "'";
    var s := "'" + a + "'" + tail;
    assert s == "'" + a + "', '" + b + "'";
    NoSpaceToTrim(s);
    QuotedHead(a, tail);
    SecondIsTrimmed(b);
    LastQuoted(b);
    assert [a] + [b] == [a, b];
  }

  function Args(call: SecretRef): string { "'" + call.instance + "', '" + call.reference + "'" }

  /** Reading a written-out call comes down to reading its arguments. */
  lemma DisplayIsRead(call: SecretRef)
    ensures ParseExpr(Display(call))
            == match ParseArgs(Args(call))
               case Err(e) => Err(e)
               case Ok(args) =>
                 if |args| != 2 || args[0] == "" || args[1] == "" then Err(Syntax) else Ok(Secret(SecretRef(args[0], args[1])))
  {
    hide ParseArgs, Find, Display, Args, TrimStart, TrimEnd;
    DisplayParts(call);
    NoSpaceToTrim("secret");
    NoSpaceAtEnd(Args(call));
    assert (Args(call) + ")")[..|Args(call)|] == Args(call);
  }

  lemma NoSpaceAtEnd(args: string)
    ensures TrimEnd(args + ")") == args + ")"
  {
  }

  lemma DisplayParts(call: SecretRef)
    ensures var s := Display(call);
            |s| > 7 && Find(s, "(") == Some(6) && s[..6] == "secret" && s[7..] == Args(call) + ")"
  {
    var s, args := Display(call), Args(call);
    assert s == "secret(" + (args + ")");
    assert s[6..] == "(" + (args + ")");
    forall i | 0 <= i < 6 ensures !("(" <= s[i..]) {
      assert s[i..][0] == "secret("[i];
    }
    FindsFirst(s, "(", 6);
  }

  lemma QuoteBegins(t: string)
    requires t != ""
    ensures t[0] == '\'' <==> "'" <= t
  {
  }

  /** What is read between single quotes holds none. */
  lemma QuotedHasNoQuote(s: string)
    requires s != "" && s[0] == '\'' && ParseQuoted(s).Ok?
    ensures '\'' !in ParseQuoted(s).value[0]
  {
    var body := s[1..];
    var end := Find(body, "'").value;
    forall i | 0 <= i < end ensures body[..end][i] != '\'' {
      QuoteBegins(body[i..]);
    }
  }

  lemma ArgsHaveNoQuote(call: SecretRef, args: seq<string>)
    requires ParseArgs(Args(call)) == Ok(args) && |args| == 2 && args[0] == call.instance && args[1] == call.reference
    ensures '\'' !in call.instance && '\'' !in call.reference
  {
    hide ParseQuoted, TrimStart, TrimEnd;
    var s := Args(call);
    NoSpaceToTrim(s);
    assert s[0] == '\'';
    QuotedHasNoQuote(s);
    var tail := ", '" + call.reference + "'";
    assert s == "'" + call.instance + "'" + tail;
    QuotedHead(call.instance, tail);
    SecondIsTrimmed(call.reference);
    QuotedHasNoQuote("'" + call.reference + "'");
  }

  /** A call as it is displayed is read back as that call exactly when both of
      its parts are non-empty and hold no single quote. */
  lemma DisplayRoundTripIff(call: SecretRef)
    ensures ParseExpr(Display(call)) == Ok(Secret(call))
            <==> call.instance != "" && call.reference != "" && '\'' !in call.instance && '\'' !in call.reference
  {
    hide ParseExpr, ParseArgs, Args, Display;
    DisplayIsRead(call);
    if '\'' !in call.instance && '\'' !in call.reference {
      ArgsAre(call);
      TwoQuoted(call.instance, call.reference);
    }
    if ParseExpr(Display(call)) == Ok(Secret(call)) {
      ArgsHaveNoQuote(call, ParseArgs(Args(call)).value);
    }
  }

  lemma ArgsAre(call: SecretRef)
    ensures Args(call) == "'" + call.instance + "', '" + call.reference + "'"
  {
  }

  // ----- value trees ---------------------------------------------------------------------

  /** A mapping key: its text (a key that is no string is printed), and whether
      it is a string. */
  datatype Key = Key(text: string, isString: bool)

  datatype Value =
    | Text(text: string)
    | Mapping(entries: seq<Entry>)
    | List(items: seq<Value>)
    | Tagged(tag: string, inner: Value)
    /** A null, a boolean or a number. */
    | Plain(plain: int)
  datatype Entry = Entry(key: Key, value: Value)

  /** What evaluating can see: variables, files, and the answers for calls. */
  datatype Answers = NoSecrets | Values(values: map<SecretRef, string>) | Placeholder
  datatype World = World(env: map<string, string>, files: map<string, string>)

  function Eval(e: Expr, w: World, secrets: Answers): Result<string, Error> {
    match e
    case Env(name) => if name in w.env then Ok(w.env[name]) else Err(NotSet(name))
    case File(path) => if path in w.files then Ok(TrimEnd(w.files[path])) else Err(NotReadable(path))
    case Secret(call) =>
      match secrets
      case Values(values) => if call in values then Ok(values[call]) else Err(NotResolved(call))
      case NoSecrets => Err(NotAvailable(call))
      case Placeholder => Ok("")
  }

  /** The pieces one after the other; an inserted value is copied as it is. */
  function Render(pieces: seq<Piece>, w: World, secrets: Answers): Result<string, Error> {
    if pieces == [] then Ok("")
    else
      match Render(pieces[..|pieces| - 1], w, secrets)
      case Err(e) => Err(e)
      case Ok(before) =>
        match pieces[|pieces| - 1]
        case Literal(text) => Ok(before + text)
        case Code(e) => (match Eval(e, w, secrets) case Err(e) => Err(e) case Ok(value) => Ok(before + value))
  }

  predicate HasCode(pieces: seq<Piece>) { exists i :: 0 <= i < |pieces| && pieces[i].Code? }

  function SubstituteText(s: string, w: World, secrets: Answers): Result<string, Error> {
    match ParseTemplate(s)
    case Err(e) => Err(e)
    case Ok(pieces) => if HasCode(pieces) then Render(pieces, w, secrets) else Ok(s)
  }

  /** One piece more. */
  lemma RenderStep(pieces: seq<Piece>, i: nat, w: World, secrets: Answers, out: string)
    requires i < |pieces| && Render(pieces[..i], w, secrets) == Ok(out)
    ensures pieces[i].Literal? ==> Render(pieces[..i + 1], w, secrets) == Ok(out + pieces[i].text)
    ensures pieces[i].Code? && Eval(pieces[i].expr, w, secrets).Ok? ==>
              Render(pieces[..i + 1], w, secrets) == Ok(out + Eval(pieces[i].expr, w, secrets).value)
  {
    hide Eval;
    assert pieces[..i + 1][..i] == pieces[..i];
  }

  method SubstituteTextLoop(input: string, w: World, secrets: Answers) returns (r: Result<string, Error>)
    ensures r == SubstituteText(input, w, secrets)
  {
    hide ParseTemplate, Render, Eval, HasCode;
    var parsed := ParseTemplateLoop(input);
    if parsed.Err? {
      return Err(parsed.error);
    }
    var pieces := parsed.value;
    if !HasCode(pieces) {
      return Ok(input);
    }
    var out := "";
    RenderNothing(w, secrets);
    for i := 0 to |pieces|
      invariant Render(pieces[..i], w, secrets) == Ok(out)
    {
      RenderStep(pieces, i, w, secrets, out);
      if pieces[i].Literal? {
        out := out + pieces[i].text;
      } else {
        var value := Eval(pieces[i].expr, w, secrets);
        if value.Err? {
          RenderFails(pieces, i, w, secrets);
          return Err(value.error);
        }
        out := out + value.value;
      }
    }
    assert pieces[..|pieces|] == pieces;
    r := Ok(out);
  }

  lemma RenderNothing(w: World, secrets: Answers)
    ensures Render([], w, secrets) == Ok("")
  {
  }

  /** The first expression that fails decides. */
  lemma {:induction false} RenderFails(pieces: seq<Piece>, i: nat, w: World, secrets: Answers)
    requires i < |pieces| && pieces[i].Code? && Render(pieces[..i], w, secrets).Ok? && Eval(pieces[i].expr, w, secrets).Err?
    ensures Render(pieces, w, secrets) == Err(Eval(pieces[i].expr, w, secrets).error)
    decreases |pieces|
  {
    var before := pieces[..|pieces| - 1];
    if i < |pieces| - 1 {
      assert before[..i] == pieces[..i];
      RenderFails(before, i, w, secrets);
    }
  }

  function Substitute(v: Value, w: World, secrets: Answers): Result<Value, Error>
    decreases v
  {
    match v
    case Text(s) => (match SubstituteText(s, w, secrets) case Err(e) => Err(e) case Ok(t) => Ok(Text(t)))
    case Mapping(entries) => (match SubstituteEntries(entries, w, secrets) case Err(e) => Err(e) case Ok(es) => Ok(Mapping(es)))
    case List(items) => (match SubstituteItems(items, w, secrets) case Err(e) => Err(e) case Ok(vs) => Ok(List(vs)))
    case Tagged(tag, inner) => (match Substitute(inner, w, secrets) case Err(e) => Err(e) case Ok(i) => Ok(Tagged(tag, i)))
    case Plain(_) => Ok(v)
  }

  function SubstituteEntries(es: seq<Entry>, w: World, secrets: Answers): Result<seq<Entry>, Error>
    decreases es
  {
    if es == [] then Ok([])
    else
      match SubstituteEntry(es[0], w, secrets)
      case Err(e) => Err(e)
      case Ok(first) =>
        match SubstituteEntries(es[1..], w, secrets)
        case Err(e) => Err(e)
        case Ok(rest) => Ok([first] + rest)
  }

  /** A mapping's keys are never templates. */
  function SubstituteEntry(e: Entry, w: World, secrets: Answers): Result<Entry, Error>
    decreases e
  {
    match Substitute(e.value, w, secrets) case Err(x) => Err(x) case Ok(v) => Ok(Entry(e.key, v))
  }

  function SubstituteItems(vs: seq<Value>, w: World, secrets: Answers): Result<seq<Value>, Error>
    decreases vs
  {
    if vs == [] then Ok([])
    else
      match Substitute(vs[0], w, secrets)
      case Err(e) => Err(e)
      case Ok(v) =>
        match SubstituteItems(vs[1..], w, secrets)
        case Err(e) => Err(e)
        case Ok(rest) => Ok([v] + rest)
  }

  // ----- scanning ---------------------------------------------------------------------------

  datatype Found = Found(call: SecretRef, at: string)

  function CallsIn(pieces: seq<Piece>, at: string): seq<Found> {
    if pieces == [] then []
    else
      CallsIn(pieces[..|pieces| - 1], at)
      + if pieces[|pieces| - 1].Code? && pieces[|pieces| - 1].expr.Secret?
        then [Found(pieces[|pieces| - 1].expr.call, at)] else []
  }

  function ChildOf(at: string, key: Key): string { if at == "" then key.text else at + "." + key.text }

  /** Every `secret()` call with where it is, in document order; or a syntax error. */
  function Scan(v: Value, at: string): (r: Result<seq<Found>, Error>)
    ensures r.Err? ==> r.error == Syntax
    decreases v
  {
    match v
    case Text(s) => (match ParseTemplate(s) case Err(e) => Err(e) case Ok(pieces) => Ok(CallsIn(pieces, at)))
    case Mapping(entries) => ScanEntries(entries, at)
    case List(items) => ScanItems(items, at, 0)
    case Tagged(_, inner) => Scan(inner, at)
    case Plain(_) => Ok([])
  }

  function ScanEntries(es: seq<Entry>, at: string): (r: Result<seq<Found>, Error>)
    ensures r.Err? ==> r.error == Syntax
    decreases es
  {
    if es == [] then Ok([])
    else
      match ScanEntry(es[0], at)
      case Err(e) => Err(e)
      case Ok(first) =>
        match ScanEntries(es[1..], at)
        case Err(e) => Err(e)
        case Ok(rest) => Ok(first + rest)
  }

  function ScanEntry(e: Entry, at: string): (r: Result<seq<Found>, Error>)
    ensures r.Err? ==> r.error == Syntax
    decreases e
  {
    Scan(e.value, ChildOf(at, e.key))
  }

  function ScanItems(vs: seq<Value>, at: string, i: nat): (r: Result<seq<Found>, Error>)
    ensures r.Err? ==> r.error == Syntax
    decreases vs
  {
    if vs == [] then Ok([])
    else
      match Scan(vs[0], at + "[" + Digits(i) + "]")
      case Err(e) => Err(e)
      case Ok(first) =>
        match ScanItems(vs[1..], at, i + 1)
        case Err(e) => Err(e)
        case Ok(rest) => Ok(first + rest)
  }

  // ----- what the scan promises the substitution ---------------------------------------------

  predicate Called(found: seq<Found>, c: SecretRef) { exists i :: 0 <= i < |found| && found[i].call == c }

  lemma CalledInConcat(a: seq<Found>, b: seq<Found>, c: SecretRef)
    ensures Called(a + b, c) <==> Called(a, c) || Called(b, c)
  {
    if Called(a, c) {
      var i :| 0 <= i < |a| && a[i].call == c;
      assert (a + b)[i].call == c;
    }
    if Called(b, c) {
      var i :| 0 <= i < |b| && b[i].call == c;
      assert (a + b)[|a| + i].call == c;
    }
  }

  lemma CalledInOne(call: SecretRef, at: string, c: SecretRef)
    ensures Called([Found(call, at)], c) <==> c == call
    ensures !Called([], c)
  {
    assert [Found(call, at)][0].call == call;
  }

  /** An error the scan could not foresee: a variable or a file. */
  predicate Foreign(e: Error) { e.NotSet? || e.NotReadable? }

  /** What may go wrong in a substitution whose scan found `found`. */
  predicate AccountedFor(e: Error, found: seq<Found>, secrets: Answers) {
    || Foreign(e)
    || (e.NotResolved? && secrets.Values? && e.call !in secrets.values && Called(found, e.call))
    || (e.NotAvailable? && secrets.NoSecrets? && Called(found, e.call))
  }

  lemma {:induction false} RenderErrors(pieces: seq<Piece>, at: string, w: World, secrets: Answers)
    ensures Render(pieces, w, secrets).Err? ==> AccountedFor(Render(pieces, w, secrets).error, CallsIn(pieces, at), secrets)
  {
    if pieces != [] {
      var before, last := pieces[..|pieces| - 1], pieces[|pieces| - 1];
      RenderErrors(before, at, w, secrets);
      if last.Code? && last.expr.Secret? {
        var call := last.expr.call;
        CalledInConcat(CallsIn(before, at), [Found(call, at)], call);
        CalledInOne(call, at, call);
        if Render(before, w, secrets).Err? && !Foreign(Render(before, w, secrets).error) {
          CalledInConcat(CallsIn(before, at), [Found(call, at)], Render(before, w, secrets).error.call);
        }
      } else {
        assert CallsIn(pieces, at) == CallsIn(before, at);
      }
    }
  }

  /** No syntax error and no call out of nowhere: after a scan, substituting can
      fail only on a variable, a file, or a call the scan reported. */
  lemma {:induction false} ScanForesees(v: Value, at: string, w: World, secrets: Answers)
    requires Scan(v, at).Ok?
    ensures Substitute(v, w, secrets).Err? ==> AccountedFor(Substitute(v, w, secrets).error, Scan(v, at).value, secrets)
    decreases v
  {
    match v {
      case Text(s) => RenderErrors(ParseTemplate(s).value, at, w, secrets);
      case Mapping(entries) => ScanForeseesEntries(entries, at, w, secrets);
      case List(items) => ScanForeseesItems(items, at, 0, w, secrets);
      case Tagged(_, inner) => ScanForesees(inner, at, w, secrets);
      case Plain(_) =>
    }
  }

  lemma {:induction false} ScanForeseesEntries(es: seq<Entry>, at: string, w: World, secrets: Answers)
    requires ScanEntries(es, at).Ok?
    ensures SubstituteEntries(es, w, secrets).Err? ==>
              AccountedFor(SubstituteEntries(es, w, secrets).error, ScanEntries(es, at).value, secrets)
    decreases es
  {
    if es != [] {
      ScanForeseesEntry(es[0], at, w, secrets);
      ScanForeseesEntries(es[1..], at, w, secrets);
      var r := SubstituteEntries(es, w, secrets);
      if r.Err? && !Foreign(r.error) {
        CalledInConcat(ScanEntry(es[0], at).value, ScanEntries(es[1..], at).value, r.error.call);
      }
    }
  }

  lemma {:induction false} ScanForeseesEntry(e: Entry, at: string, w: World, secrets: Answers)
    requires ScanEntry(e, at).Ok?
    ensures SubstituteEntry(e, w, secrets).Err? ==>
              AccountedFor(SubstituteEntry(e, w, secrets).error, ScanEntry(e, at).value, secrets)
    decreases e
  {
    ScanForesees(e.value, ChildOf(at, e.key), w, secrets);
  }

  lemma {:induction false} ScanForeseesItems(vs: seq<Value>, at: string, i: nat, w: World, secrets: Answers)
    requires ScanItems(vs, at, i).Ok?
    ensures SubstituteItems(vs, w, secrets).Err? ==>
              AccountedFor(SubstituteItems(vs, w, secrets).error, ScanItems(vs, at, i).value, secrets)
    decreases vs
  {
    if vs != [] {
      ScanForesees(vs[0], at + "[" + Digits(i) + "]", w, secrets);
      ScanForeseesItems(vs[1..], at, i + 1, w, secrets);
      var r := SubstituteItems(vs, w, secrets);
      if r.Err? && !Foreign(r.error) {
        CalledInConcat(Scan(vs[0], at + "[" + Digits(i) + "]").value, ScanItems(vs[1..], at, i + 1).value, r.error.call);
      }
    }
  }

  // ----- exactly when it succeeds ----------------------------------------------------------

  predicate Answered(found: seq<Found>, values: map<SecretRef, string>) {
    forall i :: 0 <= i < |found| ==> found[i].call in values
  }

  lemma AnsweredConcat(a: seq<Found>, b: seq<Found>, values: map<SecretRef, string>)
    ensures Answered(a + b, values) <==> Answered(a, values) && Answered(b, values)
  {
    if Answered(a + b, values) {
      forall i | 0 <= i < |a| ensures a[i].call in values { assert (a + b)[i] == a[i]; }
      forall i | 0 <= i < |b| ensures b[i].call in values { assert (a + b)[|a| + i] == b[i]; }
    }
  }

  lemma {:induction false} RenderSucceedsIff(pieces: seq<Piece>, at: string, w: World, values: map<SecretRef, string>)
    requires Render(pieces, w, Placeholder).Ok?
    ensures Render(pieces, w, Values(values)).Ok? <==> Answered(CallsIn(pieces, at), values)
  {
    hide Answered, Eval;
    if pieces == [] {
      NoneIsAnswered(values);
    } else {
      var before, last := pieces[..|pieces| - 1], pieces[|pieces| - 1];
      RenderSucceedsIff(before, at, w, values);
      if last.Code? && last.expr.Secret? {
        AnsweredConcat(CallsIn(before, at), [Found(last.expr.call, at)], values);
        OneIsAnswered(last.expr.call, at, values);
        SecretEvaluates(last.expr.call, w, values);
      } else {
        assert CallsIn(pieces, at) == CallsIn(before, at);
        if last.Code? { BuiltinsIgnoreSecrets(last.expr, w, values); }
      }
    }
  }

  lemma NoneIsAnswered(values: map<SecretRef, string>)
    ensures Answered([], values)
  {
  }

  lemma OneIsAnswered(call: SecretRef, at: string, values: map<SecretRef, string>)
    ensures Answered([Found(call, at)], values) <==> call in values
  {
    assert [Found(call, at)][0].call == call;
  }

  lemma SecretEvaluates(call: SecretRef, w: World, values: map<SecretRef, string>)
    ensures Eval(Secret(call), w, Values(values)).Ok? <==> call in values
  {
  }

  lemma BuiltinsIgnoreSecrets(e: Expr, w: World, values: map<SecretRef, string>)
    requires !e.Secret?
    ensures Eval(e, w, Values(values)) == Eval(e, w, Placeholder)
  {
  }

  /** Once every variable and file was found to be there, resolving succeeds
      exactly when every call of the scan has a value. */
  lemma {:induction false} SucceedsIffAnswered(v: Value, at: string, w: World, values: map<SecretRef, string>)
    requires Scan(v, at).Ok? && Substitute(v, w, Placeholder).Ok?
    ensures Substitute(v, w, Values(values)).Ok? <==> Answered(Scan(v, at).value, values)
    decreases v
  {
    match v {
      case Text(s) =>
        var pieces := ParseTemplate(s).value;
        if HasCode(pieces) {
          RenderSucceedsIff(pieces, at, w, values);
        } else {
          NoCodeNoCalls(pieces, at);
        }
      case Mapping(entries) => EntriesSucceedIff(entries, at, w, values);
      case List(items) => ItemsSucceedIff(items, at, 0, w, values);
      case Tagged(_, inner) => SucceedsIffAnswered(inner, at, w, values);
      case Plain(_) =>
    }
  }

  lemma {:induction false} NoCodeNoCalls(pieces: seq<Piece>, at: string)
    requires !HasCode(pieces)
    ensures CallsIn(pieces, at) == []
  {
    if pieces != [] {
      NoCodeNoCalls(pieces[..|pieces| - 1], at);
    }
  }

  lemma {:induction false} EntriesSucceedIff(es: seq<Entry>, at: string, w: World, values: map<SecretRef, string>)
    requires ScanEntries(es, at).Ok? && SubstituteEntries(es, w, Placeholder).Ok?
    ensures SubstituteEntries(es, w, Values(values)).Ok? <==> Answered(ScanEntries(es, at).value, values)
    decreases es
  {
    if es != [] {
      EntrySucceedsIff(es[0], at, w, values);
      EntriesSucceedIff(es[1..], at, w, values);
      AnsweredConcat(ScanEntry(es[0], at).value, ScanEntries(es[1..], at).value, values);
    }
  }

  lemma {:induction false} EntrySucceedsIff(e: Entry, at: string, w: World, values: map<SecretRef, string>)
    requires ScanEntry(e, at).Ok? && SubstituteEntry(e, w, Placeholder).Ok?
    ensures SubstituteEntry(e, w, Values(values)).Ok? <==> Answered(ScanEntry(e, at).value, values)
    decreases e
  {
    SucceedsIffAnswered(e.value, ChildOf(at, e.key), w, values);
  }

  lemma {:induction false} ItemsSucceedIff(vs: seq<Value>, at: string, i: nat, w: World, values: map<SecretRef, string>)
    requires ScanItems(vs, at, i).Ok? && SubstituteItems(vs, w, Placeholder).Ok?
    ensures SubstituteItems(vs, w, Values(values)).Ok? <==> Answered(ScanItems(vs, at, i).value, values)
    decreases vs
  {
    if vs != [] {
      SucceedsIffAnswered(vs[0], at + "[" + Digits(i) + "]", w, values);
      ItemsSucceedIff(vs[1..], at, i + 1, w, values);
      AnsweredConcat(Scan(vs[0], at + "[" + Digits(i) + "]").value, ScanItems(vs[1..], at, i + 1).value, values);
    }
  }

  // ----- shape, and what a result depends on ----------------------------------------------------

  /** The same tree but for the texts at its leaves: same keys, tags, order and
      numbers, and texts without an expression as they were. */
  predicate SameShape(v: Value, out: Value)
    decreases v
  {
    match v
    case Text(s) => out.Text? && (Find(s, "{{").None? ==> out.text == s)
    case Mapping(entries) => out.Mapping? && SameEntries(entries, out.entries)
    case List(items) => out.List? && SameItems(items, out.items)
    case Tagged(tag, inner) => out.Tagged? && out.tag == tag && SameShape(inner, out.inner)
    case Plain(_) => out == v
  }

  predicate SameEntry(e: Entry, f: Entry)
    decreases e
  {
    e.key == f.key && SameShape(e.value, f.value)
  }

  predicate SameEntries(es: seq<Entry>, fs: seq<Entry>)
    decreases es
  {
    |es| == |fs| && (es != [] ==> SameEntry(es[0], fs[0]) && SameEntries(es[1..], fs[1..]))
  }

  predicate SameItems(vs: seq<Value>, us: seq<Value>)
    decreases vs
  {
    |vs| == |us| && (vs != [] ==> SameShape(vs[0], us[0]) && SameItems(vs[1..], us[1..]))
  }

  lemma {:induction false} ShapeIsKept(v: Value, w: World, secrets: Answers)
    requires Substitute(v, w, secrets).Ok?
    ensures SameShape(v, Substitute(v, w, secrets).value)
    decreases v
  {
    match v {
      case Text(s) =>
        if Find(s, "{{").None? { assert !HasCode(LiteralPiece(s)); }
      case Mapping(entries) => EntriesKeepShape(entries, w, secrets);
      case List(items) => ItemsKeepShape(items, w, secrets);
      case Tagged(_, inner) => ShapeIsKept(inner, w, secrets);
      case Plain(_) =>
    }
  }

  lemma {:induction false} EntriesKeepShape(es: seq<Entry>, w: World, secrets: Answers)
    requires SubstituteEntries(es, w, secrets).Ok?
    ensures SameEntries(es, SubstituteEntries(es, w, secrets).value)
    decreases es
  {
    if es != [] {
      EntryKeepsShape(es[0], w, secrets);
      EntriesKeepShape(es[1..], w, secrets);
    }
  }

  lemma {:induction false} EntryKeepsShape(e: Entry, w: World, secrets: Answers)
    requires SubstituteEntry(e, w, secrets).Ok?
    ensures SameEntry(e, SubstituteEntry(e, w, secrets).value)
    decreases e
  {
    ShapeIsKept(e.value, w, secrets);
  }

  lemma {:induction false} ItemsKeepShape(vs: seq<Value>, w: World, secrets: Answers)
    requires SubstituteItems(vs, w, secrets).Ok?
    ensures SameItems(vs, SubstituteItems(vs, w, secrets).value)
    decreases vs
  {
    if vs != [] {
      ShapeIsKept(vs[0], w, secrets);
      ItemsKeepShape(vs[1..], w, secrets);
    }
  }

  // ----- what is inserted ------------------------------------------------------------------

  /** What stands for an expression. */
  function Lookup(e: Expr, w: World, secrets: Answers): string {
    match e
    case Env(name) => if name in w.env then w.env[name] else ""
    case File(path) => if path in w.files then TrimEnd(w.files[path]) else ""
    case Secret(call) => if secrets.Values? && call in secrets.values then secrets.values[call] else ""
  }

  /** Its variable, file or call has a value. */
  predicate HasValue(e: Expr, w: World, secrets: Answers) {
    match e
    case Env(name) => name in w.env
    case File(path) => path in w.files
    case Secret(call) => secrets.Placeholder? || (secrets.Values? && call in secrets.values)
  }

  function Joined(parts: seq<string>): string { if parts == [] then "" else parts[0] + Joined(parts[1..]) }

  /** A template's parts: its literals, and the values looked up, as they are. */
  function Filled(pieces: seq<Piece>, w: World, secrets: Answers): (r: seq<string>)
    ensures |r| == |pieces|
    ensures forall i :: 0 <= i < |pieces| ==>
              r[i] == if pieces[i].Literal? then pieces[i].text else Lookup(pieces[i].expr, w, secrets)
  {
    if pieces == [] then []
    else
      var last := pieces[|pieces| - 1];
      Filled(pieces[..|pieces| - 1], w, secrets) + [if last.Literal? then last.text else Lookup(last.expr, w, secrets)]
  }

  predicate AllHaveValues(pieces: seq<Piece>, w: World, secrets: Answers) {
    forall i :: 0 <= i < |pieces| && pieces[i].Code? ==> HasValue(pieces[i].expr, w, secrets)
  }

  lemma {:induction false} JoinedSnoc(parts: seq<string>, last: string)
    ensures Joined(parts + [last]) == Joined(parts) + last
  {
    if parts == [] {
      assert [last][1..] == [] && last + "" == last && [] + [last] == [last];
    } else {
      assert (parts + [last])[1..] == parts[1..] + [last];
      JoinedSnoc(parts[1..], last);
      assert parts[0] + (Joined(parts[1..]) + last) == parts[0] + Joined(parts[1..]) + last;
    }
  }

  lemma EvalIsLookup(e: Expr, w: World, secrets: Answers)
    ensures Eval(e, w, secrets).Ok? <==> HasValue(e, w, secrets)
    ensures Eval(e, w, secrets).Ok? ==> Eval(e, w, secrets).value == Lookup(e, w, secrets)
  {
  }

  lemma {:induction false} RenderIsFilled(pieces: seq<Piece>, w: World, secrets: Answers)
    ensures Render(pieces, w, secrets).Ok? <==> AllHaveValues(pieces, w, secrets)
    ensures Render(pieces, w, secrets).Ok? ==> Render(pieces, w, secrets).value == Joined(Filled(pieces, w, secrets))
  {
    hide Eval, Lookup, HasValue;
    if pieces != [] {
      var before, last := pieces[..|pieces| - 1], pieces[|pieces| - 1];
      RenderIsFilled(before, w, secrets);
      JoinedSnoc(Filled(before, w, secrets), if last.Literal? then last.text else Lookup(last.expr, w, secrets));
      if last.Code? { EvalIsLookup(last.expr, w, secrets); }
      assert AllHaveValues(pieces, w, secrets) ==> AllHaveValues(before, w, secrets);
    }
  }

  /** Braces make an expression. */
  lemma BracesMakeCode(s: string)
    requires ParseTemplate(s).Ok? && Find(s, "{{").Some?
    ensures HasCode(ParseTemplate(s).value)
  {
    hide Find, ParseExpr, Trim;
    var open := Find(s, "{{").value;
    assert ParseTemplate(s).value[|LiteralPiece(s[..open])|].Code?;
  }

  /** A template without an expression is its own literal. */
  lemma LiteralIsItself(s: string, w: World, secrets: Answers)
    requires ParseTemplate(s).Ok? && !HasCode(ParseTemplate(s).value)
    ensures Joined(Filled(ParseTemplate(s).value, w, secrets)) == s
  {
    if Find(s, "{{").None? {
      JoinedSnoc([], s);
      assert [] + [s] == [s];
    } else {
      BracesMakeCode(s);
    }
  }

  /** Whatever the template: it succeeds exactly when it is well formed and each
      variable, file and call in it has a value, and the result is its literals
      and those values one after the other, verbatim: what was inserted is never
      read as a template again. */
  lemma TextIsLiteralsAndValues(s: string, w: World, secrets: Answers)
    ensures SubstituteText(s, w, secrets).Ok? <==> ParseTemplate(s).Ok? && AllHaveValues(ParseTemplate(s).value, w, secrets)
    ensures SubstituteText(s, w, secrets).Ok? ==>
              SubstituteText(s, w, secrets).value == Joined(Filled(ParseTemplate(s).value, w, secrets))
  {
    hide ParseTemplate, Render, Filled, HasValue;
    if ParseTemplate(s).Ok? {
      RenderIsFilled(ParseTemplate(s).value, w, secrets);
      if !HasCode(ParseTemplate(s).value) {
        LiteralIsItself(s, w, secrets);
      }
    }
  }

  /** The same variables, files and calls have a value, whatever it is. */
  predicate SameLookups(w: World, secrets: Answers, w': World, secrets': Answers) {
    && w.env.Keys == w'.env.Keys && w.files.Keys == w'.files.Keys
    && (secrets.Values? <==> secrets'.Values?) && (secrets.NoSecrets? <==> secrets'.NoSecrets?)
    && (secrets.Values? ==> secrets.values.Keys == secrets'.values.Keys)
  }

  /** Success, and the error otherwise. */
  predicate SameOutcome<T>(a: Result<T, Error>, b: Result<T, Error>) {
    && (a.Ok? <==> b.Ok?)
    && (a.Err? ==> a.error == b.error)
  }

  lemma EvalIgnoresValues(e: Expr, w: World, secrets: Answers, w': World, secrets': Answers)
    requires SameLookups(w, secrets, w', secrets')
    ensures SameOutcome(Eval(e, w, secrets), Eval(e, w', secrets'))
  {
    match e {
      case Env(name) => assert name in w.env.Keys <==> name in w'.env.Keys;
      case File(path) => assert path in w.files.Keys <==> path in w'.files.Keys;
      case Secret(call) => if secrets.Values? { assert call in secrets.values.Keys <==> call in secrets'.values.Keys; }
    }
  }

  lemma {:induction false} RenderIgnoresValues(pieces: seq<Piece>, w: World, secrets: Answers, w': World, secrets': Answers)
    requires SameLookups(w, secrets, w', secrets')
    ensures SameOutcome(Render(pieces, w, secrets), Render(pieces, w', secrets'))
  {
    hide Eval, SameLookups;
    if pieces != [] {
      RenderIgnoresValues(pieces[..|pieces| - 1], w, secrets, w', secrets');
      var last := pieces[|pieces| - 1];
      if last.Code? { EvalIgnoresValues(last.expr, w, secrets, w', secrets'); }
    }
  }

  /** Whatever the tree: whether it resolves, and the error if not, depends only
      on which variables, files and calls have a value, never on what the values
      hold, template text included. */
  lemma {:induction false} OutcomeIgnoresValues(v: Value, w: World, secrets: Answers, w': World, secrets': Answers)
    requires SameLookups(w, secrets, w', secrets')
    ensures SameOutcome(Substitute(v, w, secrets), Substitute(v, w', secrets'))
    decreases v
  {
    hide SameLookups;
    match v {
      case Text(s) =>
        if ParseTemplate(s).Ok? { RenderIgnoresValues(ParseTemplate(s).value, w, secrets, w', secrets'); }
      case Mapping(entries) => EntriesIgnoreValues(entries, w, secrets, w', secrets');
      case List(items) => ItemsIgnoreValues(items, w, secrets, w', secrets');
      case Tagged(_, inner) => OutcomeIgnoresValues(inner, w, secrets, w', secrets');
      case Plain(_) =>
    }
  }

  lemma {:induction false} EntriesIgnoreValues(es: seq<Entry>, w: World, secrets: Answers, w': World, secrets': Answers)
    requires SameLookups(w, secrets, w', secrets')
    ensures SameOutcome(SubstituteEntries(es, w, secrets), SubstituteEntries(es, w', secrets'))
    decreases es
  {
    if es != [] {
      EntryIgnoresValues(es[0], w, secrets, w', secrets');
      EntriesIgnoreValues(es[1..], w, secrets, w', secrets');
    }
  }

  lemma {:induction false} EntryIgnoresValues(e: Entry, w: World, secrets: Answers, w': World, secrets': Answers)
    requires SameLookups(w, secrets, w', secrets')
    ensures SameOutcome(SubstituteEntry(e, w, secrets), SubstituteEntry(e, w', secrets'))
    decreases e
  {
    OutcomeIgnoresValues(e.value, w, secrets, w', secrets');
  }

  lemma {:induction false} ItemsIgnoreValues(vs: seq<Value>, w: World, secrets: Answers, w': World, secrets': Answers)
    requires SameLookups(w, secrets, w', secrets')
    ensures SameOutcome(SubstituteItems(vs, w, secrets), SubstituteItems(vs, w', secrets'))
    decreases vs
  {
    if vs != [] {
      OutcomeIgnoresValues(vs[0], w, secrets, w', secrets');
      ItemsIgnoreValues(vs[1..], w, secrets, w', secrets');
    }
  }

  /** The tree with every text's expressions replaced by their values, and
      nothing else touched. */
  predicate FilledIn(v: Value, out: Value, w: World, secrets: Answers)
    decreases v
  {
    match v
    case Text(s) => out.Text? && ParseTemplate(s).Ok? && out.text == Joined(Filled(ParseTemplate(s).value, w, secrets))
    case Mapping(entries) => out.Mapping? && EntriesFilledIn(entries, out.entries, w, secrets)
    case List(items) => out.List? && ItemsFilledIn(items, out.items, w, secrets)
    case Tagged(tag, inner) => out.Tagged? && out.tag == tag && FilledIn(inner, out.inner, w, secrets)
    case Plain(_) => out == v
  }

  predicate EntryFilledIn(e: Entry, f: Entry, w: World, secrets: Answers)
    decreases e
  {
    e.key == f.key && FilledIn(e.value, f.value, w, secrets)
  }

  predicate EntriesFilledIn(es: seq<Entry>, fs: seq<Entry>, w: World, secrets: Answers)
    decreases es
  {
    |es| == |fs| && (es != [] ==> EntryFilledIn(es[0], fs[0], w, secrets) && EntriesFilledIn(es[1..], fs[1..], w, secrets))
  }

  predicate ItemsFilledIn(vs: seq<Value>, us: seq<Value>, w: World, secrets: Answers)
    decreases vs
  {
    |vs| == |us| && (vs != [] ==> FilledIn(vs[0], us[0], w, secrets) && ItemsFilledIn(vs[1..], us[1..], w, secrets))
  }

  /** An inserted value is never expanded again, at any leaf of any tree: each
      text of the result is the literals and values of the template that stood
      there, verbatim. */
  lemma {:induction false} InsertedValuesAreNotExpanded(v: Value, w: World, secrets: Answers)
    requires Substitute(v, w, secrets).Ok?
    ensures FilledIn(v, Substitute(v, w, secrets).value, w, secrets)
    decreases v
  {
    match v {
      case Text(s) => TextIsLiteralsAndValues(s, w, secrets);
      case Mapping(entries) => EntriesAreFilledIn(entries, w, secrets);
      case List(items) => ItemsAreFilledIn(items, w, secrets);
      case Tagged(_, inner) => InsertedValuesAreNotExpanded(inner, w, secrets);
      case Plain(_) =>
    }
  }

  lemma {:induction false} EntriesAreFilledIn(es: seq<Entry>, w: World, secrets: Answers)
    requires SubstituteEntries(es, w, secrets).Ok?
    ensures EntriesFilledIn(es, SubstituteEntries(es, w, secrets).value, w, secrets)
    decreases es
  {
    if es != [] {
      EntryIsFilledIn(es[0], w, secrets);
      EntriesAreFilledIn(es[1..], w, secrets);
    }
  }

  lemma {:induction false} EntryIsFilledIn(e: Entry, w: World, secrets: Answers)
    requires SubstituteEntry(e, w, secrets).Ok?
    ensures EntryFilledIn(e, SubstituteEntry(e, w, secrets).value, w, secrets)
    decreases e
  {
    InsertedValuesAreNotExpanded(e.value, w, secrets);
  }

  lemma {:induction false} ItemsAreFilledIn(vs: seq<Value>, w: World, secrets: Answers)
    requires SubstituteItems(vs, w, secrets).Ok?
    ensures ItemsFilledIn(vs, SubstituteItems(vs, w, secrets).value, w, secrets)
    decreases vs
  {
    if vs != [] {
      InsertedValuesAreNotExpanded(vs[0], w, secrets);
      ItemsAreFilledIn(vs[1..], w, secrets);
    }
  }

  // ----- a call in braces ----------------------------------------------------------------------

  /** A template that begins with `{{` and has its `}}` after `inner`. */
  lemma ExpressionFirst(s: string, after: string, inner: string, rest: string, e: Expr, more: seq<Piece>)
    requires s == "{{" + after && Find(s, "{{") == Some(0)
    requires Find(after, "}}") == Some(|inner|) && after == inner + "}}" + rest
    requires ParseExpr(Trim(inner)) == Ok(e) && ParseTemplate(rest) == Ok(more)
    ensures ParseTemplate(s) == Ok([Code(e)] + more)
  {
    hide ParseExpr, Find, Trim;
    assert s[2..] == after && s[..0] == "" && after[..|inner|] == inner && after[|inner| + 2..] == rest;
    assert [] + [Code(e)] + more == [Code(e)] + more;
  }

  /** A template that is one expression. */
  lemma OneExpression(inner: string, e: Expr)
    requires Find(inner + "}}", "}}") == Some(|inner|) && ParseExpr(Trim(inner)) == Ok(e)
    ensures ParseTemplate("{{" + inner + "}}") == Ok([Code(e)])
  {
    var after := inner + "}}";
    var s := "{{" + after;
    BracesAround(inner);
    OpensAtOnce(after);
    NoBracesInNothing();
    OnlyPiece(s, after, inner, e);
  }

  lemma BracesAround(inner: string)
    ensures "{{" + (inner + "}}") == "{{" + inner + "}}" && inner + "}}" == inner + "}}" + ""
  {
  }

  lemma OnlyPiece(s: string, after: string, inner: string, e: Expr)
    requires s == "{{" + after && Find(s, "{{") == Some(0)
    requires Find(after, "}}") == Some(|inner|) && after == inner + "}}" + ""
    requires ParseExpr(Trim(inner)) == Ok(e) && ParseTemplate("") == Ok([])
    ensures ParseTemplate(s) == Ok([Code(e)])
  {
    hide ParseExpr, Find, Trim, ParseTemplate;
    ExpressionFirst(s, after, inner, "", e, []);
    assert [Code(e)] + [] == [Code(e)];
  }

  lemma NoBracesInNothing()
    ensures Find("", "{{").None? && ParseTemplate("") == Ok([])
  {
  }

  /** A template that begins with an expression. */
  lemma BeginsWithCode(s: string, after: string)
    requires s == "{{" + after && Find(s, "{{") == Some(0) && ParseTemplate(s).Ok?
    ensures var close := Find(after, "}}");
            && close.Some? && ParseExpr(Trim(after[..close.value])).Ok? && ParseTemplate(after[close.value + 2..]).Ok?
            && ParseTemplate(s).value == [Code(ParseExpr(Trim(after[..close.value])).value)] + ParseTemplate(after[close.value + 2..]).value
  {
    hide ParseExpr, Trim, Find;
    assert s[2..] == after && s[..0] == "";
    var e := ParseExpr(Trim(after[..Find(after, "}}").value])).value;
    assert LiteralPiece("") + [Code(e)] == [Code(e)];
  }

  /** A template of one piece, an expression, ends with its braces. */
  lemma OnePieceEnds(inner: string, e: Expr)
    requires ParseTemplate("{{" + inner + "}}") == Ok([Code(e)])
    ensures Find(inner + "}}", "}}") == Some(|inner|) && ParseExpr(Trim(inner)) == Ok(e)
  {
    hide ParseExpr, Trim, Find, ParseTemplate;
    var after := inner + "}}";
    var s := "{{" + after;
    assert s == "{{" + inner + "}}";
    OpensAtOnce(after);
    BeginsWithCode(s, after);
    var close := Find(after, "}}").value;
    OnlyOnePiece(Code(ParseExpr(Trim(after[..close])).value), ParseTemplate(after[close + 2..]).value, Code(e));
    SomethingIsAPiece(after[close + 2..]);
    assert |after[close + 2..]| == |after| - close - 2;
    assert close == |inner| && after[..|inner|] == inner;
  }

  lemma OnlyOnePiece(first: Piece, rest: seq<Piece>, one: Piece)
    requires [first] + rest == [one]
    ensures first == one && rest == []
  {
    assert |[first] + rest| == 1 + |rest| && ([first] + rest)[0] == first;
  }

  lemma OpensAtOnce(after: string)
    ensures Find("{{" + after, "{{") == Some(0)
  {
    assert ("{{" + after)[0..] == "{{" + after;
    FindsFirst("{{" + after, "{{", 0);
  }

  lemma SomethingIsAPiece(s: string)
    requires ParseTemplate(s).Ok? && ParseTemplate(s).value == []
    ensures s == ""
  {
  }

  /** Nothing in the text closes an expression. */
  predicate NoClose(s: string) { Find(s, "}}").None? }

  predicate ClosesAt(s: string, i: nat) { i + 2 <= |s| && s[i] == '}' && s[i + 1] == '}' }

  lemma NoCloseIs(s: string)
    ensures NoClose(s) <==> forall i: nat :: !ClosesAt(s, i)
  {
    var k := Find(s, "}}");
    if k.Some? {
      assert s[k.value..k.value + 2][0] == s[k.value] && s[k.value..k.value + 2][1] == s[k.value + 1];
      assert ClosesAt(s, k.value);
    } else {
      forall i: nat ensures !ClosesAt(s, i) {
        if i + 2 <= |s| {
          assert !("}}" <= s[i..]);
          assert s[i..][0] == s[i] && s[i..][1] == s[i + 1] && s[i..][..2] == [s[i], s[i + 1]];
        }
      }
    }
  }

  /** The braces after `inner` are the first ones to close. */
  lemma ClosesFirstIff(inner: string)
    requires inner != "" && inner[|inner| - 1] != '}'
    ensures Find(inner + "}}", "}}") == Some(|inner|) <==> NoClose(inner)
  {
    var s := inner + "}}";
    NoCloseIs(inner);
    assert s[|inner|..] == "}}";
    forall i: nat | i < |inner| ensures ("}}" <= s[i..]) <==> ClosesAt(inner, i) {
      assert s[i] == inner[i] && s[i..][0] == s[i] && s[i..][1] == s[i + 1] && s[i..][..2] == [s[i], s[i + 1]];
    }
    if NoClose(inner) {
      FindsFirst(s, "}}", |inner|);
    }
  }

  /** What closes inside a part closes in the whole. */
  lemma ClosesInPart(before: string, part: string, after: string)
    ensures NoClose(before + part + after) ==> NoClose(part)
  {
    var s := before + part + after;
    NoCloseIs(s);
    NoCloseIs(part);
    hide NoClose;
    forall i: nat | ClosesAt(part, i) ensures ClosesAt(s, |before| + i) {
      assert s[|before|..|before| + |part|] == part;
    }
  }

  /** Nothing new closes where two texts meet, if one of them has no brace there. */
  lemma ClosesInEither(a: string, b: string)
    requires NoClose(a) && NoClose(b) && (a == "" || b == "" || a[|a| - 1] != '}' || b[0] != '}')
    ensures NoClose(a + b)
  {
    NoCloseIs(a);
    NoCloseIs(b);
    NoCloseIs(a + b);
    hide NoClose;
    forall i: nat ensures !ClosesAt(a + b, i) {
      if i >= |a| {
        assert !ClosesAt(b, i - |a|);
      } else {
        assert !ClosesAt(a, i);
      }
    }
  }

  lemma FixedPartsDoNotClose()
    ensures NoClose(" secret('") && NoClose("', '") && NoClose("') ")
  {
    NoCloseIs(" secret('");
    NoCloseIs("', '");
    NoCloseIs("') ");
    hide NoClose;
    assert forall c :: c in " secret('" || c in "', '" || c in "') " ==> c != '}';
  }

  lemma DisplayCloses(call: SecretRef)
    ensures NoClose(" " + Display(call) + " ") <==> NoClose(call.instance) && NoClose(call.reference)
  {
    hide NoClose;
    var a, b := call.instance, call.reference;
    var head, mid, tail := " secret('", "', '", "') ";
    assert " " + Display(call) + " " == head + a + (mid + b + tail) == (head + a + mid) + b + tail;
    ClosesInPart(head, a, mid + b + tail);
    ClosesInPart(head + a + mid, b, tail);
    if NoClose(a) && NoClose(b) {
      FixedPartsDoNotClose();
      ClosesInEither(head, a);
      ClosesInEither(head + a, mid);
      ClosesInEither(head + a + mid, b);
      ClosesInEither(head + a + mid + b, tail);
      assert head + a + mid + b + tail == (head + a + mid) + b + tail;
    }
  }

  /** A call written out in braces is the one expression of its template,
      exactly when its parts are non-empty, hold no single quote and do not close
      the braces. */
  lemma WrittenCallIsFoundIff(call: SecretRef)
    ensures ParseTemplate("{{ " + Display(call) + " }}") == Ok([Code(Secret(call))])
            <==> && call.instance != "" && call.reference != "" && '\'' !in call.instance && '\'' !in call.reference
                 && NoClose(call.instance) && NoClose(call.reference)
  {
    hide ParseTemplate, ParseExpr, Trim, NoClose, Find;
    DisplayRoundTripIff(call);
    var inner := " " + Display(call) + " ";
    TrimAround(Display(call));
    ClosesFirstIff(inner);
    DisplayCloses(call);
    assert "{{" + inner + "}}" == "{{ " + Display(call) + " }}";
    if ParseTemplate("{{" + inner + "}}") == Ok([Code(Secret(call))]) {
      OnePieceEnds(inner, Secret(call));
    } else if Find(inner + "}}", "}}") == Some(|inner|) && ParseExpr(Trim(inner)) == Ok(Secret(call)) {
      OneExpression(inner, Secret(call));
    }
  }

  lemma TrimAround(s: string)
    requires s != "" && !IsSpace(s[0]) && !IsSpace(s[|s| - 1])
    ensures Trim(" " + s + " ") == s
  {
    var t := " " + s + " ";
    assert t[1..] == s + " ";
    assert TrimStart(s + " ") == s + " ";
    assert (s + " ")[..|s + " "| - 1] == s;
    NoSpaceToTrim(s);
  }

  // ----- which texts are expressions ------------------------------------------------------------

  predicate Blank(s: string) { forall i :: 0 <= i < |s| ==> IsSpace(s[i]) }

  predicate IsQuote(c: char) { c == '\'' || c == '\"' }

  lemma {:induction false} TrimStartSplits(s: string) returns (gap: string)
    ensures Blank(gap) && s == gap + TrimStart(s) && (TrimStart(s) != "" ==> !IsSpace(TrimStart(s)[0]))
    decreases |s|
  {
    gap := "";
    if s != "" && IsSpace(s[0]) {
      var rest := TrimStartSplits(s[1..]);
      gap := [s[0]] + rest;
      assert s == [s[0]] + s[1..];
    }
  }

  lemma {:induction false} TrimEndSplits(s: string) returns (gap: string)
    ensures Blank(gap) && s == TrimEnd(s) + gap && (TrimEnd(s) != "" ==> !IsSpace(TrimEnd(s)[|TrimEnd(s)| - 1]))
    decreases |s|
  {
    gap := "";
    if s != "" && IsSpace(s[|s| - 1]) {
      var rest := TrimEndSplits(s[..|s| - 1]);
      gap := rest + [s[|s| - 1]];
      assert s == s[..|s| - 1] + [s[|s| - 1]];
    }
  }

  lemma {:induction false} TrimStartIs(gap: string, s: string)
    requires Blank(gap) && (s == "" || !IsSpace(s[0]))
    ensures TrimStart(gap + s) == s
    decreases |gap|
  {
    if gap == "" {
      assert gap + s == s;
    } else {
      assert (gap + s)[1..] == gap[1..] + s;
      TrimStartIs(gap[1..], s);
    }
  }

  lemma {:induction false} TrimEndIs(s: string, gap: string)
    requires Blank(gap) && (s == "" || !IsSpace(s[|s| - 1]))
    ensures TrimEnd(s + gap) == s
    decreases |gap|
  {
    if gap == "" {
      assert s + gap == s;
    } else {
      assert (s + gap)[..|s + gap| - 1] == s + gap[..|gap| - 1];
      TrimEndIs(s, gap[..|gap| - 1]);
    }
  }

  /** The text is these literals: each between two quotes of one kind that it
      does not hold, with a comma between them and white space where it may be. */
  ghost predicate Lists(s: string, values: seq<string>)
    decreases |values|
  {
    values != [] && exists q: char, gap: string, rest: string :: ListsFirst(s, q, values[0], gap, rest) && ListsRest(rest, values)
  }

  predicate ListsFirst(s: string, q: char, value: string, gap: string, rest: string) {
    IsQuote(q) && q !in value && Blank(gap) && s == [q] + value + [q] + gap + rest
  }

  ghost predicate ListsRest(rest: string, values: seq<string>)
    requires values != []
    decreases |values|, 0
  {
    if |values| == 1 then rest == ""
    else exists gap: string, tail: string :: AfterComma(rest, gap, tail) && Lists(tail, values[1..])
  }

  predicate AfterComma(rest: string, gap: string, tail: string) { Blank(gap) && rest == "," + gap + tail }

  lemma ListsBegins(s: string, values: seq<string>)
    requires Lists(s, values)
    ensures s != "" && IsQuote(s[0]) && !IsSpace(s[0])
  {
  }

  /** The first quote of that kind, in a text that begins with none. */
  lemma FindsThatQuote(q: char, a: string, rest: string)
    requires q !in a
    ensures Find(a + [q] + rest, [q]) == Some(|a|)
  {
    var s := a + [q] + rest;
    assert s[|a|..] == [q] + rest;
    forall i | 0 <= i < |a| ensures !([q] <= s[i..]) {
      assert s[i] == a[i] && s[i..][0] == s[i];
    }
    FindsFirst(s, [q], |a|);
  }

  lemma {:induction false} ListIsRead(s: string, values: seq<string>)
    requires Lists(s, values)
    ensures ParseQuoted(s) == Ok(values)
    decreases |values|
  {
    hide Find, TrimStart;
    var q: char, gap: string, rest: string :| ListsFirst(s, q, values[0], gap, rest) && ListsRest(rest, values);
    assert s[1..] == values[0] + [q] + (gap + rest);
    FindsThatQuote(q, values[0], gap + rest);
    assert s[1..][..|values[0]|] == values[0] && s[1..][|values[0]| + 1..] == gap + rest;
    if |values| == 1 {
      TrimStartIs(gap, "");
      assert values == [values[0]];
    } else {
      var gap2: string, tail: string :| AfterComma(rest, gap2, tail) && Lists(tail, values[1..]);
      CommaIsNoSpace();
      TrimStartIs(gap, rest);
      ListsBegins(tail, values[1..]);
      TrimStartIs(gap2, tail);
      assert rest[1..] == gap2 + tail;
      ListIsRead(tail, values[1..]);
      assert values == [values[0]] + values[1..];
    }
  }

  lemma CommaIsNoSpace()
    ensures !IsSpace(',') && !IsSpace(')') && !IsSpace('\'') && !IsSpace('\"')
  {
  }

  /** The text around the first `q`, which does not stand before it. */
  lemma {:induction false} AroundFirst(s: string, q: char) returns (before: string, after: string)
    requires Find(s, [q]).Some?
    ensures s == before + [q] + after && q !in before && Find(s, [q]) == Some(|before|)
    decreases |s|
  {
    if [q] <= s {
      before, after := "", s[1..];
    } else {
      var rest;
      rest, after := AroundFirst(s[1..], q);
      before := [s[0]] + rest;
      assert s == [s[0]] + s[1..];
      assert s[0] != q;
    }
  }

  lemma {:induction false} ReadIsAList(s: string)
    requires ParseQuoted(s).Ok?
    ensures Lists(s, ParseQuoted(s).value)
    decreases |s|
  {
    hide Find, TrimStart;
    var q, values := s[0], ParseQuoted(s).value;
    var value, after := AroundFirst(s[1..], q);
    assert s[1..][..|value|] == value && s[1..][|value| + 1..] == after;
    var gap := TrimStartSplits(after);
    var more := TrimStart(after);
    FirstIsListed(s, q, value, gap, more);
    if more == "" {
      assert values == [value] && ListsRest(more, values);
    } else {
      var gap2 := TrimStartSplits(more[1..]);
      var tail := TrimStart(more[1..]);
      assert more == "," + gap2 + tail;
      TrimStartShrinks(after);
      TrimStartShrinks(more[1..]);
      ReadIsAList(tail);
      assert AfterComma(more, gap2, tail);
      assert values == [value] + ParseQuoted(tail).value && values[1..] == ParseQuoted(tail).value;
      assert ListsRest(more, values);
    }
    assert ListsFirst(s, q, values[0], gap, more);
  }

  lemma FirstIsListed(s: string, q: char, value: string, gap: string, more: string)
    requires s != "" && s[0] == q && IsQuote(q) && q !in value && Blank(gap) && s[1..] == value + [q] + (gap + more)
    ensures ListsFirst(s, q, value, gap, more)
  {
    assert s == [q] + s[1..];
  }

  /** White space after a list changes nothing. */
  lemma {:induction false} ListThenBlank(s: string, post: string, values: seq<string>)
    requires Blank(post)
    ensures Lists(s, values) ==> Lists(s + post, values)
    decreases |values|
  {
    if Lists(s, values) {
      var q: char, gap: string, rest: string :| ListsFirst(s, q, values[0], gap, rest) && ListsRest(rest, values);
      if |values| == 1 {
        assert s + post == [q] + values[0] + [q] + (gap + post) + "";
        assert ListsFirst(s + post, q, values[0], gap + post, "");
      } else {
        var gap2: string, tail: string :| AfterComma(rest, gap2, tail) && Lists(tail, values[1..]);
        ListThenBlank(tail, post, values[1..]);
        assert rest + post == "," + gap2 + (tail + post);
        assert AfterComma(rest + post, gap2, tail + post);
        assert s + post == [q] + values[0] + [q] + gap + (rest + post);
        assert ListsFirst(s + post, q, values[0], gap, rest + post);
      }
    }
  }

  lemma EndIsBlank(s: string, post: string)
    requires Blank(post)
    ensures forall k :: |s| <= k < |s + post| ==> IsSpace((s + post)[k])
  {
  }

  /** What ends a text of two parts, where the second part is white space and the
      end begins with none, begins in the first part. */
  lemma EndsBeforeBlank(s: string, post: string, front: string, end: string) returns (cut: string)
    requires Blank(post) && s + post == front + end && (end != "" ==> !IsSpace(end[0]))
    requires end == "" ==> front != "" && !IsSpace(front[|front| - 1])
    ensures s == front + cut && end == cut + post
  {
    var t := s + post;
    EndIsBlank(s, post);
    assert end == "" ==> t[|front| - 1] == front[|front| - 1];
    assert end != "" ==> t[|front|] == end[0];
    cut := s[|front|..];
    assert t[..|front|] == front && t[|front|..] == end;
  }

  lemma {:induction false} ListBeforeBlank(s: string, post: string, values: seq<string>)
    requires Blank(post) && Lists(s + post, values)
    ensures Lists(s, values)
    decreases |values|
  {
    var q: char, gap: string, rest: string :| ListsFirst(s + post, q, values[0], gap, rest) && ListsRest(rest, values);
    var front := [q] + values[0] + [q];
    CommaIsNoSpace();
    if |values| == 1 {
      LastListed(s, post, front, gap);
      assert ListsFirst(s, q, values[0], s[|front|..], "");
    } else {
      var gap2: string, tail: string :| AfterComma(rest, gap2, tail) && Lists(tail, values[1..]);
      ListsBegins(tail, values[1..]);
      var most := front + gap + ("," + gap2);
      assert s + post == most + tail;
      var cut := EndsBeforeBlank(s, post, most, tail);
      ListBeforeBlank(cut, post, values[1..]);
      var rest' := "," + gap2 + cut;
      assert AfterComma(rest', gap2, cut);
      assert s == front + gap + rest';
      assert ListsFirst(s, q, values[0], gap, rest') && ListsRest(rest', values);
    }
  }

  lemma LastListed(s: string, post: string, front: string, gap: string)
    requires Blank(post) && Blank(gap) && s + post == front + gap + "" && front != "" && !IsSpace(front[|front| - 1])
    ensures |front| <= |s| && Blank(s[|front|..]) && s == front + s[|front|..] + ""
  {
    var t := s + post;
    assert t == front + gap;
    EndIsBlank(s, post);
    assert t[|front| - 1] == front[|front| - 1];
    assert forall i :: 0 <= i < |s[|front|..]| ==> s[|front|..][i] == t[|front| + i] == gap[i];
    assert s[..|front|] == t[..|front|] == front;
  }

  /** What may stand between the parentheses. */
  ghost predicate Arguments(s: string, values: seq<string>) {
    if values == [] then Blank(s)
    else exists gap: string, list: string :: Blank(gap) && s == gap + list && Lists(list, values)
  }

  lemma ArgumentsAreReadIff(s: string, values: seq<string>)
    ensures ParseArgs(s) == Ok(values) <==> Arguments(s, values)
  {
    hide Lists, TrimStart, TrimEnd;
    var gap := TrimStartSplits(s);
    var t := TrimStart(s);
    var post := TrimEndSplits(t);
    var mid := TrimEnd(t);
    if mid == "" {
      assert s == gap + post && Blank(s);
      if values != [] && Arguments(s, values) { ListIsNotBlank(s, values); }
    } else {
      assert s[|gap|] == t[0];
      assert !Blank(s);
      if ParseArgs(s) == Ok(values) {
        ReadIsAList(mid);
        ListThenBlank(mid, post, values);
        assert s == gap + (mid + post);
      }
      if Arguments(s, values) {
        var g: string, list: string :| Blank(g) && s == g + list && Lists(list, values);
        ListsBegins(list, values);
        TrimStartIs(g, list);
        assert list == mid + post;
        ListBeforeBlank(mid, post, values);
        ListIsRead(mid, values);
      }
    }
  }

  lemma ListIsNotBlank(s: string, values: seq<string>)
    requires Arguments(s, values) && values != []
    ensures !Blank(s)
  {
    var g: string, list: string :| Blank(g) && s == g + list && Lists(list, values);
    ListsBegins(list, values);
    assert s[|g|] == list[0];
  }

  /** The word alone, but for white space. */
  ghost predicate IsWord(s: string, word: string) {
    exists pre: string, post: string :: Blank(pre) && Blank(post) && s == pre + word + post
  }

  lemma WordIsTrimmedIff(s: string, word: string)
    requires word != "" && !IsSpace(word[0]) && !IsSpace(word[|word| - 1])
    ensures Trim(s) == word <==> IsWord(s, word)
  {
    hide TrimStart, TrimEnd;
    var gap := TrimStartSplits(s);
    var end := TrimEndSplits(TrimStart(s));
    if Trim(s) == word {
      assert s == gap + word + end;
    }
    if IsWord(s, word) {
      var pre: string, post: string :| Blank(pre) && Blank(post) && s == pre + word + post;
      assert s == pre + (word + post);
      TrimStartIs(pre, word + post);
      TrimEndIs(word, post);
    }
  }

  /** An expression's name and arguments. */
  function WordOf(e: Expr): string {
    match e
    case Env(_) => "env"
    case File(_) => "file"
    case Secret(_) => "secret"
  }

  function ValuesOf(e: Expr): seq<string> {
    match e
    case Env(name) => [name]
    case File(path) => [path]
    case Secret(call) => [call.instance, call.reference]
  }

  /** The text writes the expression out: its name, and its arguments in
      parentheses. A call's two arguments are not empty. */
  ghost predicate Spells(s: string, e: Expr) {
    && (e.Secret? ==> e.call.instance != "" && e.call.reference != "")
    && exists before: string, args: string, after: string ::
         Parts(s, before, args, after) && IsWord(before, WordOf(e)) && Arguments(args, ValuesOf(e))
  }

  predicate Parts(s: string, before: string, args: string, after: string) {
    '(' !in before && Blank(after) && s == before + "(" + args + ")" + after
  }

  /** A text has at most one such partition, and the parser uses it. */
  lemma PartsAreFound(s: string, before: string, args: string, after: string)
    requires Parts(s, before, args, after)
    ensures Find(s, "(") == Some(|before|) && s[..|before|] == before
            && s[|before| + 1..] == args + ")" + after && TrimEnd(s[|before| + 1..]) == args + ")"
  {
    hide Find, TrimEnd;
    FindsThatQuote('(', before, args + ")" + after);
    assert s == before + ['('] + (args + ")" + after);
    CommaIsNoSpace();
    TrimEndIs(args + ")", after);
    assert args + ")" + after == (args + ")") + after;
  }

  lemma FoundAreParts(s: string) returns (before: string, args: string, after: string)
    requires ParseExpr(s).Ok?
    ensures Parts(s, before, args, after)
  {
    hide Find, TrimEnd, TrimStart, ParseArgs;
    var rest;
    before, rest := AroundFirst(s, '(');
    assert s[|before| + 1..] == rest;
    after := TrimEndSplits(rest);
    var tail := TrimEnd(rest);
    args := tail[..|tail| - 1];
    assert tail == args + ")";
    assert s == before + "(" + rest;
  }

  /** Reading a text in its parts. */
  lemma PartsAreRead(s: string, before: string, args: string, after: string)
    requires Parts(s, before, args, after)
    ensures ParseExpr(s) ==
              if Trim(before) !in {"env", "file", "secret"} then Err(Syntax)
              else match ParseArgs(args)
                case Err(e) => Err(e)
                case Ok(values) => Expression(Trim(before), values)
  {
    hide Find, TrimStart, TrimEnd, Trim, ParseArgs;
    PartsAreFound(s, before, args, after);
    assert (args + ")")[..|args + ")"| - 1] == args;
  }

  /** The expression of a name and arguments, if there is one. */
  function Expression(word: string, values: seq<string>): (r: Result<Expr, Error>)
    ensures forall e :: r == Ok(e) <==>
              word == WordOf(e) && values == ValuesOf(e) && (e.Secret? ==> e.call.instance != "" && e.call.reference != "")
  {
    if word == "env" && |values| == 1 then Ok(Env(values[0]))
    else if word == "file" && |values| == 1 then Ok(File(values[0]))
    else if word == "secret" && |values| == 2 && values[0] != "" && values[1] != ""
    then Ok(Secret(SecretRef(values[0], values[1])))
    else Err(Syntax)
  }

  /** A text is read as an expression exactly when it writes that one out; every
      other text is a syntax error. */
  lemma ExpressionIsReadIff(s: string, e: Expr)
    ensures ParseExpr(s) == Ok(e) <==> Spells(s, e)
    ensures ParseExpr(s).Err? ==> ParseExpr(s) == Err(Syntax) && !Spells(s, e)
  {
    hide ParseExpr, ParseArgs, Trim, IsWord, Arguments;
    if ParseExpr(s) == Ok(e) {
      var before, args, after := FoundAreParts(s);
      PartsAreRead(s, before, args, after);
      WordsAreTrimmed(before, e);
      ArgumentsAreReadIff(args, ValuesOf(e));
    }
    if Spells(s, e) {
      var before: string, args: string, after: string :|
        Parts(s, before, args, after) && IsWord(before, WordOf(e)) && Arguments(args, ValuesOf(e));
      PartsAreRead(s, before, args, after);
      WordsAreTrimmed(before, e);
      ArgumentsAreReadIff(args, ValuesOf(e));
    }
  }

  lemma WordsAreTrimmed(before: string, e: Expr)
    ensures Trim(before) == WordOf(e) <==> IsWord(before, WordOf(e))
  {
    WordIsTrimmedIff(before, WordOf(e));
  }

  // ----- a variable or a file in braces ---------------------------------------------------------

  /** A call of one argument, written out. */
  function Written(word: string, q: char, arg: string): string { word + "(" + [q] + arg + [q] + ")" }

  lemma WrittenHasParts(word: string, q: char, arg: string)
    requires '(' !in word
    ensures Parts(Written(word, q, arg), word, [q] + arg + [q], "")
  {
  }

  /** One literal: the argument itself, if the quote does not stand in it. */
  lemma QuotedIsListedIff(q: char, arg: string)
    requires IsQuote(q)
    ensures Arguments([q] + arg + [q], [arg]) <==> q !in arg
  {
    var s := [q] + arg + [q];
    if q !in arg {
      assert s == [q] + arg + [q] + "" + "";
      assert ListsFirst(s, q, arg, "", "") && [arg][0] == arg && ListsRest("", [arg]);
      assert s == "" + s;
    }
    if Arguments(s, [arg]) {
      var gap: string, list: string :| Blank(gap) && s == gap + list && Lists(list, [arg]);
      CommaIsNoSpace();
      ListsBegins(list, [arg]);
      TrimStartIs(gap, list);
      assert list == TrimStart(s) == s;
      var p: char, g: string, rest: string :| ListsFirst(s, p, arg, g, rest) && ListsRest(rest, [arg]);
      assert p == s[0] == q;
    }
  }

  lemma WordStandsAlone(e: Expr)
    ensures IsWord(WordOf(e), WordOf(e)) && '(' !in WordOf(e)
  {
    assert Blank("") && WordOf(e) == "" + WordOf(e) + "";
  }

  /** A variable or a file, in quotes of either kind, is read as that one
      exactly when its name does not hold the quote. */
  lemma WrittenIsReadIff(e: Expr, q: char)
    requires !e.Secret? && IsQuote(q)
    ensures ParseExpr(Written(WordOf(e), q, ValuesOf(e)[0])) == Ok(e) <==> q !in ValuesOf(e)[0]
  {
    hide ParseExpr, Arguments, IsWord, ParseArgs;
    var word, arg := WordOf(e), ValuesOf(e)[0];
    var s := Written(word, q, arg);
    WordStandsAlone(e);
    WrittenHasParts(word, q, arg);
    QuotedIsListedIff(q, arg);
    ArgumentsAreReadIff([q] + arg + [q], ValuesOf(e));
    PartsAreRead(s, word, [q] + arg + [q], "");
    WordsAreTrimmed(word, e);
    assert ValuesOf(e) == [arg];
  }

  lemma WrittenCloses(e: Expr, q: char)
    requires !e.Secret? && IsQuote(q)
    ensures NoClose(" " + Written(WordOf(e), q, ValuesOf(e)[0]) + " ") <==> NoClose(ValuesOf(e)[0])
  {
    hide NoClose;
    var word, arg := WordOf(e), ValuesOf(e)[0];
    var head, tail := " " + word + "(" + [q], [q] + ") ";
    assert " " + Written(word, q, arg) + " " == head + arg + tail;
    ClosesInPart(head, arg, tail);
    if NoClose(arg) {
      NoBraceNoClose(head);
      NoBraceNoClose(tail);
      ClosesInEither(head, arg);
      ClosesInEither(head + arg, tail);
    }
  }

  lemma NoBraceNoClose(s: string)
    requires '}' !in s
    ensures NoClose(s)
  {
    NoCloseIs(s);
  }

  /** A template that is one variable or file in braces holds just that,
      exactly when its name holds neither the quote nor closing braces. */
  lemma WrittenIsFoundIff(e: Expr, q: char)
    requires !e.Secret? && IsQuote(q)
    ensures ParseTemplate("{{ " + Written(WordOf(e), q, ValuesOf(e)[0]) + " }}") == Ok([Code(e)])
            <==> q !in ValuesOf(e)[0] && NoClose(ValuesOf(e)[0])
  {
    hide ParseTemplate, ParseExpr, Trim, NoClose, Find;
    var s := Written(WordOf(e), q, ValuesOf(e)[0]);
    WrittenIsReadIff(e, q);
    var inner := " " + s + " ";
    CommaIsNoSpace();
    TrimAround(s);
    ClosesFirstIff(inner);
    WrittenCloses(e, q);
    assert "{{" + inner + "}}" == "{{ " + s + " }}";
    if ParseTemplate("{{" + inner + "}}") == Ok([Code(e)]) {
      OnePieceEnds(inner, e);
    } else if Find(inner + "}}", "}}") == Some(|inner|) && ParseExpr(Trim(inner)) == Ok(e) {
      OneExpression(inner, e);
    }
  }

  lemma OneIsRendered(e: Expr, w: World, secrets: Answers)
    ensures Render([Code(e)], w, secrets) == Eval(e, w, secrets) && HasCode([Code(e)])
  {
    hide Eval;
    assert [Code(e)][..0] == [] && [Code(e)][0].Code?;
    var v := Eval(e, w, secrets);
    if v.Ok? { assert "" + v.value == v.value; }
  }

  /** `{{ env('n') }}` resolves exactly when the variable n is set, and then to
      its value. */
  lemma VariableResolvesIff(name: string, q: char, w: World, secrets: Answers)
    requires IsQuote(q) && q !in name && NoClose(name)
    ensures var r := SubstituteText("{{ env(" + [q] + name + [q] + ") }}", w, secrets);
            && (r.Ok? <==> name in w.env) && (r.Ok? ==> r.value == w.env[name]) && (r.Err? ==> r.error == NotSet(name))
  {
    hide ParseTemplate, Render, NoClose, HasCode;
    WrittenIsFoundIff(Env(name), q);
    OneIsRendered(Env(name), w, secrets);
    assert "{{ env(" + [q] + name + [q] + ") }}" == "{{ " + Written("env", q, name) + " }}";
  }

  /** `{{ file('n') }}` resolves exactly when the file n can be read, and then
      to its text without the white space at its end. */
  lemma FileResolvesIff(path: string, q: char, w: World, secrets: Answers) returns (end: string)
    requires IsQuote(q) && q !in path && NoClose(path)
    ensures var r := SubstituteText("{{ file(" + [q] + path + [q] + ") }}", w, secrets);
            && (r.Ok? <==> path in w.files)
            && (r.Ok? ==> w.files[path] == r.value + end && Blank(end) && (r.value != "" ==> !IsSpace(r.value[|r.value| - 1])))
            && (r.Err? ==> r.error == NotReadable(path))
  {
    hide ParseTemplate, Render, NoClose, HasCode, TrimEnd, IsSpace;
    WrittenIsFoundIff(File(path), q);
    OneIsRendered(File(path), w, secrets);
    assert "{{ file(" + [q] + path + [q] + ") }}" == "{{ " + Written("file", q, path) + " }}";
    end := "";
    if path in w.files { end := TrimEndSplits(w.files[path]); }
  }
}
