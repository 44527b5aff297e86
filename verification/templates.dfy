/** The part of Python's `str.format` that path templates use: keyword
    placeholders `{name}` filled from a dict of keyword arguments, and the
    escapes `{{` and `}}` for literal braces.

    `Format` follows the interpreter: one left-to-right pass that renders each
    placeholder as soon as it is read, so the first problem met (a stray brace,
    an unclosed field, a missing key) is the one reported. `Parse` and `Fill`
    are the two-phase reference reading of the same grammar: first the list of
    pieces, then the substitution. Both are built on the lexer `Scan`. */
module Templates {
  import opened Outcomes
  import opened Values

  /** Why `str.format` raised. */
  datatype FormatError =
    | StrayClose                       // a '}' that is not part of "}}"
    | UnclosedField                    // a '{' with no '}' after it
    | PositionalField(field: string)   // "{}" or "{0}": positional, and no positional arguments are passed
    | UnsupportedField(field: string)  // attribute, index, conversion or format spec
    | MissingKey(name: string)         // KeyError: no keyword argument of that name

  /** One unit of a template: a literal character or a keyword placeholder. */
  datatype Piece = Text(c: char) | Placeholder(name: string)

  /** A piece as read from a template, with the number of characters it takes. */
  datatype Lexeme = Lexeme(piece: Piece, width: nat)

  /** Characters that end or structure a field name in Python's grammar. */
  predicate IsMarkup(c: char)
  {
    c == '{' || c == '}' || c == '.' || c == '[' || c == '!' || c == ':'
  }

  /** A field that Python looks up as a keyword argument by exactly this name. */
  predicate IsKeyword(f: string)
  {
    && 0 < |f|
    && !AllDigits(f)
    && forall i :: 0 <= i < |f| ==> !IsMarkup(f[i])
  }

  predicate WellFormed(p: Piece)
  {
    p.Placeholder? ==> IsKeyword(p.name)
  }

  /** The error Python reports for the field text between '{' and '}', if any. */
  function FieldError(f: string): (r: Option<FormatError>)
    ensures r.None? <==> IsKeyword(f)
  {
    if exists i :: 0 <= i < |f| && IsMarkup(f[i]) then Some(UnsupportedField(f))
    else if AllDigits(f) then Some(PositionalField(f))
    else None
  }

  /** The index of the first '}' at or after `i`, or `|t|` when there is none. */
  function CloseIndex(t: string, i: nat): (j: nat)
    requires i <= |t|
    ensures i <= j <= |t|
    ensures j < |t| ==> t[j] == '}'
    ensures forall k :: i <= k < j ==> t[k] != '}'
    decreases |t| - i
  {
    if i == |t| || t[i] == '}' then i else CloseIndex(t, i + 1)
  }

  /** The template text a piece is written as. */
  function PieceText(p: Piece): string
  {
    match p
    case Text(c) => if c == '{' || c == '}' then [c, c] else [c]
    case Placeholder(n) => "{" + n + "}"
  }

  /** The template text of a sequence of pieces. */
  function Unparse(ps: seq<Piece>): string
  {
    if |ps| == 0 then "" else PieceText(ps[0]) + Unparse(ps[1..])
  }

  /** A piece read from the front of a template, in front of the pieces of
      the rest, gives well-formed pieces whose text is the whole template. */
  lemma PrependPiece(t: string, p: Piece, k: nat, ps: seq<Piece>)
    requires k <= |t| && t[..k] == PieceText(p) && WellFormed(p)
    requires Unparse(ps) == t[k..]
    requires forall i :: 0 <= i < |ps| ==> WellFormed(ps[i])
    ensures Unparse([p] + ps) == t
    ensures forall i :: 0 <= i < |[p] + ps| ==> WellFormed(([p] + ps)[i])
  {
    assert ([p] + ps)[0] == p && ([p] + ps)[1..] == ps;
    assert t == t[..k] + t[k..];
  }

  /** Reads the first piece of a non-empty template: the piece and how many
      characters it takes, or the error Python raises at that point. */
  function Scan(t: string): (r: Result<Lexeme, FormatError>)
    requires 0 < |t|
    ensures r.Ok? ==> 0 < r.value.width <= |t|
    ensures r.Ok? ==> t[..r.value.width] == PieceText(r.value.piece)
    ensures r.Ok? ==> WellFormed(r.value.piece)
  {
    if t[0] == '{' then
      if 1 < |t| && t[1] == '{' then Ok(Lexeme(Text('{'), 2))
      else
        var j := CloseIndex(t, 1);
        if j == |t| then Err(UnclosedField)
        else
          match FieldError(t[1..j])
          case Some(e) => Err(e)
          case None =>
            assert t[..j + 1] == "{" + t[1..j] + "}";
            Ok(Lexeme(Placeholder(t[1..j]), j + 1))
    else if t[0] == '}' then
      if 1 < |t| && t[1] == '}' then Ok(Lexeme(Text('}'), 2)) else Err(StrayClose)
    else Ok(Lexeme(Text(t[0]), 1))
  }

  /** The text one piece contributes once keyword arguments are substituted. */
  function Substitute(p: Piece, args: Kwargs): Result<string, FormatError>
  {
    match p
    case Text(c) => Ok([c])
    case Placeholder(n) => if n in args then Ok(Render(args[n])) else Err(MissingKey(n))
  }

  function Concat(r1: Result<string, FormatError>, r2: Result<string, FormatError>): Result<string, FormatError>
  {
    match r1
    case Err(e) => Err(e)
    case Ok(s1) =>
      match r2
      case Err(e) => Err(e)
      case Ok(s2) => Ok(s1 + s2)
  }

  /** `t.format(**args)`, read left to right as the interpreter does. On a
      template that parses it is substitution into the parsed pieces, so it
      succeeds exactly when every placeholder name is a key, and a failure is
      the missing-key error for the first placeholder without one; a template
      that does not parse fails whatever the arguments. */
  function Format(t: string, args: Kwargs): (r: Result<string, FormatError>)
    ensures Parse(t).Ok? ==> r == Fill(Parse(t).value, args)
    ensures Parse(t).Err? ==> r.Err?
    ensures r.Ok? <==> Parse(t).Ok? && Names(Parse(t).value) <= args.Keys
    decreases |t|
  {
    if |t| == 0 then Ok("")
    else
      match Scan(t)
      case Err(e) => Err(e)
      case Ok(Lexeme(p, k)) =>
        assert Parse(t[k..]).Ok? ==> ([p] + Parse(t[k..]).value)[1..] == Parse(t[k..]).value;
        match Substitute(p, args)
        case Err(e) => Err(e)
        case Ok(s) => Concat(Ok(s), Format(t[k..], args))
  }

  /** The pieces of a template, or the first syntax error in it. The pieces
      are well formed, and writing them back gives exactly the template. */
  function Parse(t: string): (r: Result<seq<Piece>, FormatError>)
    ensures r.Ok? ==> Unparse(r.value) == t
    ensures r.Ok? ==> forall i :: 0 <= i < |r.value| ==> WellFormed(r.value[i])
    decreases |t|
  {
    if |t| == 0 then Ok([])
    else
      match Scan(t)
      case Err(e) => Err(e)
      case Ok(Lexeme(p, k)) =>
        match Parse(t[k..])
        case Err(e) => Err(e)
        case Ok(ps) =>
          PrependPiece(t, p, k, ps);
          Ok([p] + ps)
  }

  /** The placeholder names among some pieces. */
  function Names(ps: seq<Piece>): set<string>
  {
    if |ps| == 0 then {} else (if ps[0].Placeholder? then {ps[0].name} else {}) + Names(ps[1..])
  }

  /** Substitutes keyword arguments into parsed pieces. It succeeds exactly when
      every placeholder has an argument, and otherwise names the first
      placeholder that has none. */
  function Fill(ps: seq<Piece>, args: Kwargs): (r: Result<string, FormatError>)
    ensures r.Ok? <==> Names(ps) <= args.Keys
    ensures r.Err? ==> r.error.MissingKey? && r.error.name in Names(ps) && r.error.name !in args
    ensures r.Err? ==> exists i :: && 0 <= i < |ps|
                                   && ps[i] == Placeholder(r.error.name)
                                   && forall j :: 0 <= j < i && ps[j].Placeholder? ==> ps[j].name in args
  {
    if |ps| == 0 then Ok("")
    else
      var rest := Fill(ps[1..], args);
      assert Substitute(ps[0], args).Ok? && rest.Err? ==>
               exists i :: && 0 <= i < |ps|
                           && ps[i] == Placeholder(rest.error.name)
                           && forall j :: 0 <= j < i && ps[j].Placeholder? ==> ps[j].name in args
      by {
        if Substitute(ps[0], args).Ok? && rest.Err? {
          var i :| && 0 <= i < |ps| - 1
                   && ps[1..][i] == Placeholder(rest.error.name)
                   && forall j :: 0 <= j < i && ps[1..][j].Placeholder? ==> ps[1..][j].name in args;
          forall j | 0 <= j < i + 1 && ps[j].Placeholder? ensures ps[j].name in args {
            if 0 < j {
              assert ps[j] == ps[1..][j - 1];
            }
          }
          assert ps[i + 1] == ps[1..][i];
        }
      }
      Concat(Substitute(ps[0], args), rest)
  }

  /** Literal text written as a template: every brace doubled. */
  function Escape(s: string): string
  {
    if |s| == 0 then "" else PieceText(Text(s[0])) + Escape(s[1..])
  }

  /** The literal pieces of some text. */
  function Texts(s: string): (ps: seq<Piece>)
    ensures |ps| == |s|
  {
    if |s| == 0 then [] else [Text(s[0])] + Texts(s[1..])
  }

  // ---------------------------------------------------------------------------
  // Arguments the template does not name

  lemma {:induction false} FillIgnoresUnusedKeys(ps: seq<Piece>, a: Kwargs, b: Kwargs)
    requires forall n :: n in Names(ps) ==> (n in a <==> n in b)
    requires forall n :: n in Names(ps) && n in a ==> a[n] == b[n]
    ensures Fill(ps, a) == Fill(ps, b)
  {
    if 0 < |ps| {
      assert Names(ps) == (if ps[0].Placeholder? then {ps[0].name} else {}) + Names(ps[1..]);
      FillIgnoresUnusedKeys(ps[1..], a, b);
    }
  }

  /** Arguments that no placeholder names do not change the result: two
      argument dicts that agree on the template's names format it alike. */
  lemma {:induction false} FormatIgnoresUnusedKeys(t: string, a: Kwargs, b: Kwargs)
    requires Parse(t).Ok?
    requires forall n :: n in Names(Parse(t).value) ==> (n in a <==> n in b)
    requires forall n :: n in Names(Parse(t).value) && n in a ==> a[n] == b[n]
    ensures Format(t, a) == Format(t, b)
  {
    FillIgnoresUnusedKeys(Parse(t).value, a, b);
  }

  // ---------------------------------------------------------------------------
  // Parsing and writing templates are inverse

  lemma ScanPiece(p: Piece, rest: string)
    requires WellFormed(p)
    ensures Scan(PieceText(p) + rest) == Ok(Lexeme(p, |PieceText(p)|))
  {
    var t := PieceText(p) + rest;
    if p.Placeholder? {
      var n := p.name;
      assert t[1] == n[0];
      assert t[|n| + 1] == '}';
      assert forall k :: 1 <= k <= |n| ==> t[k] == n[k - 1];
      var j := CloseIndex(t, 1);
      assert j == |n| + 1;
      assert t[1..j] == n;
    }
  }

  /** Writing well-formed pieces as a template and parsing it gives them back. */
  lemma {:induction false} ParseUnparse(ps: seq<Piece>)
    requires forall i :: 0 <= i < |ps| ==> WellFormed(ps[i])
    ensures Parse(Unparse(ps)) == Ok(ps)
  {
    if 0 < |ps| {
      var t := Unparse(ps);
      ScanPiece(ps[0], Unparse(ps[1..]));
      assert t[|PieceText(ps[0])|..] == Unparse(ps[1..]);
      ParseUnparse(ps[1..]);
      assert [ps[0]] + ps[1..] == ps;
    }
  }

  lemma {:induction false} EscapeIsUnparseOfTexts(s: string)
    ensures Escape(s) == Unparse(Texts(s))
    ensures forall i :: 0 <= i < |Texts(s)| ==> WellFormed(Texts(s)[i])
    ensures Names(Texts(s)) == {}
  {
    if 0 < |s| {
      EscapeIsUnparseOfTexts(s[1..]);
      assert Texts(s)[1..] == Texts(s[1..]);
    }
  }

  lemma {:induction false} FillTexts(s: string)
    ensures Fill(Texts(s), map[]) == Ok(s)
  {
    if 0 < |s| {
      FillTexts(s[1..]);
      assert Texts(s)[1..] == Texts(s[1..]);
      assert s == [s[0]] + s[1..];
    }
  }

  /** Escaped text formats back to the text itself, under any arguments. */
  lemma EscapeFormatsToItself(s: string, args: Kwargs)
    ensures Format(Escape(s), args) == Ok(s)
  {
    EscapeIsUnparseOfTexts(s);
    FillTexts(s);
    ParseUnparse(Texts(s));
    FillIgnoresUnusedKeys(Texts(s), args, map[]);
  }

  lemma HeadThenTail(s: string, v: string)
    requires 0 < |s|
    ensures [s[0]] + (s[1..] + v) == s + v
  {
    assert s == [s[0]] + s[1..];
  }

  lemma FormatStep(t: string, args: Kwargs, p: Piece, k: nat)
    requires 0 < |t| && Scan(t) == Ok(Lexeme(p, k))
    ensures Format(t, args) == Concat(Substitute(p, args), Format(t[k..], args))
  {
  }

  lemma FormatAfterChar(s: string, t: string, args: Kwargs)
    requires 0 < |s|
    ensures Format(Escape(s) + t, args) == Concat(Ok([s[0]]), Format(Escape(s[1..]) + t, args))
  {
    var head := PieceText(Text(s[0]));
    var rest := Escape(s[1..]) + t;
    var u := Escape(s) + t;
    assert u == head + rest;
    ScanPiece(Text(s[0]), rest);
    assert u[|head|..] == rest;
    FormatStep(u, args, Text(s[0]), |head|);
  }

  /** Literal text in front of a template contributes itself and changes
      nothing else: the rest formats, or fails, as it would alone. */
  lemma {:induction false} FormatAfterText(s: string, t: string, args: Kwargs)
    ensures Format(Escape(s) + t, args) == Concat(Ok(s), Format(t, args))
  {
    if |s| == 0 {
      assert Escape(s) + t == t;
      match Format(t, args)
      case Err(e) =>
      case Ok(v) => assert s + v == v;
    } else {
      FormatAfterChar(s, t, args);
      FormatAfterText(s[1..], t, args);
      match Format(t, args)
      case Err(e) =>
      case Ok(v) =>
        HeadThenTail(s, v);
    }
  }

  /** A single placeholder formats to the rendering of its argument. */
  lemma FormatPlaceholder(n: string, args: Kwargs)
    requires IsKeyword(n)
    ensures Format("{" + n + "}", args)
         == if n in args then Ok(Render(args[n])) else Err(MissingKey(n))
  {
    var t := "{" + n + "}";
    ScanPiece(Placeholder(n), "");
    assert PieceText(Placeholder(n)) + "" == t;
    assert t[|t|..] == "";
    if n in args {
      assert Render(args[n]) + "" == Render(args[n]);
    }
  }

  lemma PlaceholderThenText(n: string, suffix: string, args: Kwargs)
    requires forall i :: 0 <= i < |suffix| ==> suffix[i] != '{' && suffix[i] != '}'
    requires IsKeyword(n)
    ensures Format(PieceText(Placeholder(n)) + suffix, args)
         == Concat(Substitute(Placeholder(n), args), Ok(suffix))
  {
    var field := PieceText(Placeholder(n));
    var u := field + suffix;
    ScanPiece(Placeholder(n), suffix);
    assert u[|field|..] == suffix;
    FormatStep(u, args, Placeholder(n), |field|);
    NoBracesFormatsToItself(suffix, args);
  }

  lemma PlaceholderShape(prefix: string, n: string, suffix: string)
    ensures prefix + "{" + n + "}" + suffix == prefix + (PieceText(Placeholder(n)) + suffix)
  {
    var l, r := prefix + "{" + n + "}" + suffix, prefix + (PieceText(Placeholder(n)) + suffix);
    assert |l| == |r|;
    forall i | 0 <= i < |l| ensures l[i] == r[i] {
    }
  }

  lemma Regroup3(a: string, b: string, c: string)
    ensures a + (b + c) == a + b + c
  {
    var l, r := a + (b + c), a + b + c;
    assert |l| == |r|;
    forall i | 0 <= i < |l| ensures l[i] == r[i] {
    }
  }

  lemma ConcatAround(prefix: string, v: Result<string, FormatError>, suffix: string)
    ensures Concat(Ok(prefix), Concat(v, Ok(suffix)))
         == if v.Ok? then Ok(prefix + v.value + suffix) else v
  {
    if v.Ok? {
      Regroup3(prefix, v.value, suffix);
    }
  }

  /** A placeholder between two brace-free texts, the shape of
      "/posts/{post_id}/comments": the texts stay as they are and the
      placeholder becomes its argument's rendering, or formatting fails with
      the placeholder's missing key. */
  lemma PlaceholderBetweenText(prefix: string, n: string, suffix: string, args: Kwargs)
    requires forall i :: 0 <= i < |prefix| ==> prefix[i] != '{' && prefix[i] != '}'
    requires forall i :: 0 <= i < |suffix| ==> suffix[i] != '{' && suffix[i] != '}'
    requires IsKeyword(n)
    ensures Format(prefix + "{" + n + "}" + suffix, args)
         == if n in args then Ok(prefix + Render(args[n]) + suffix) else Err(MissingKey(n))
  {
    var u := PieceText(Placeholder(n)) + suffix;
    var t := prefix + "{" + n + "}" + suffix;
    PlaceholderShape(prefix, n, suffix);
    EscapeWithoutBraces(prefix);
    assert t == Escape(prefix) + u;
    FormatAfterText(prefix, u, args);
    PlaceholderThenText(n, suffix, args);
    ConcatAround(prefix, Substitute(Placeholder(n), args), suffix);
    assert Format(Escape(prefix) + u, args) == Concat(Ok(prefix), Concat(Substitute(Placeholder(n), args), Ok(suffix)));
  }

  lemma {:induction false} EscapeWithoutBraces(s: string)
    requires forall i :: 0 <= i < |s| ==> s[i] != '{' && s[i] != '}'
    ensures Escape(s) == s
  {
    if 0 < |s| {
      EscapeWithoutBraces(s[1..]);
      assert s == [s[0]] + s[1..];
    }
  }

  /** A template without braces formats to itself for any arguments, the empty dict included. */
  lemma NoBracesFormatsToItself(t: string, args: Kwargs)
    requires forall i :: 0 <= i < |t| ==> t[i] != '{' && t[i] != '}'
    ensures Format(t, args) == Ok(t)
  {
    EscapeWithoutBraces(t);
    EscapeFormatsToItself(t, args);
  }

}
