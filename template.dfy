/** `str.format(**context)` for templates made of literal text, the brace
    escapes `{{` and `}}`, and named replacement fields `{name}`. Every way
    the call can raise (a lone `}`, an unterminated `{`, a `{` inside a
    field, a positional field, a name missing from the context) is a
    single failure, because the only caller catches them all alike. */
module Template {
  import opened Common
  import opened Strings

  /** One parsed element of a template. */
  datatype Piece = Lit(c: char) | Placeholder(name: string)

  predicate IsBrace(c: char) { c == '{' || c == '}' }

  /** The text of a field: everything up to the next brace. */
  function FieldText(t: string): (r: string)
    ensures |r| <= |t| && r == t[..|r|]
    ensures '{' !in r && '}' !in r
    ensures |r| < |t| ==> IsBrace(t[|r|])
    decreases |t|
  {
    if t == [] || IsBrace(t[0]) then [] else [t[0]] + FieldText(t[1..])
  }

  /** The parse `str.format` performs, or None when it raises a ValueError. */
  function Parse(t: string): (r: Option<seq<Piece>>)
    ensures r.Some? ==> PlainFields(r.value)
    decreases |t|
  {
    if t == [] then Some([])
    else if |t| >= 2 && t[0] == '{' && t[1] == '{' then Cons(Lit('{'), Parse(t[2..]))
    else if |t| >= 2 && t[0] == '}' && t[1] == '}' then Cons(Lit('}'), Parse(t[2..]))
    else if t[0] == '}' then None
    else if t[0] == '{' then
      var name := FieldText(t[1..]);
      if |name| + 1 < |t| && t[|name| + 1] == '}' then Cons(Placeholder(name), Parse(t[|name| + 2..]))
      else None
    else Cons(Lit(t[0]), Parse(t[1..]))
  }

  function Cons(p: Piece, rest: Option<seq<Piece>>): Option<seq<Piece>> {
    match rest
    case None => None
    case Some(ps) => Some([p] + ps)
  }

  /** A field that `str.format` looks up among the keyword arguments: not
      empty (automatic numbering) and not a number (a positional index). */
  predicate IsKeywordField(name: string) {
    name != [] && !IsDigits(name)
  }

  predicate Resolves(name: string, context: map<string, string>) {
    IsKeywordField(name) && name in context
  }

  /** The text one piece stands for, or None when it is a field that does
      not resolve (the IndexError or KeyError of the lookup). */
  function PieceValue(p: Piece, context: map<string, string>): Option<string> {
    match p
    case Lit(c) => Some([c])
    case Placeholder(name) => if Resolves(name, context) then Some(context[name]) else None
  }

  /** The text a parsed template stands for, or None when a field does not
      resolve. */
  function Render(ps: seq<Piece>, context: map<string, string>): (r: Option<string>)
    ensures r.None? <==> exists i :: 0 <= i < |ps| && ps[i].Placeholder? && !Resolves(ps[i].name, context)
    decreases |ps|
  {
    if ps == [] then Some([])
    else
      var rest := Render(ps[1..], context);
      assert forall i :: 1 <= i < |ps| ==> ps[i] == ps[1..][i - 1];
      Join(PieceValue(ps[0], context), rest)
  }

  function Join(a: Option<string>, b: Option<string>): Option<string> {
    if a.Some? && b.Some? then Some(a.value + b.value) else None
  }

  /** `template.format(**context)`, None when the call raises. */
  function Format(template: string, context: map<string, string>): (r: Option<string>)
    ensures r.None? <==>
              || Parse(template).None?
              || exists i :: 0 <= i < |Parse(template).value| && Parse(template).value[i].Placeholder?
                                && !Resolves(Parse(template).value[i].name, context)
  {
    match Parse(template)
    case None => None
    case Some(ps) => Render(ps, context)
  }

  /** The template text of one piece: a literal brace is doubled, a field
      is its name in braces. */
  function PieceText(p: Piece): string {
    match p
    case Lit(c) => if IsBrace(c) then [c, c] else [c]
    case Placeholder(name) => "{" + name + "}"
  }

  /** The template text a parsed template comes from. */
  function Unparse(ps: seq<Piece>): string
    decreases |ps|
  {
    if ps == [] then [] else PieceText(ps[0]) + Unparse(ps[1..])
  }

  lemma UnparseCons(p: Piece, ps: seq<Piece>)
    ensures Unparse([p] + ps) == PieceText(p) + Unparse(ps)
  {
    assert ([p] + ps)[1..] == ps;
  }

  predicate PlainFields(ps: seq<Piece>) {
    forall i :: 0 <= i < |ps| && ps[i].Placeholder? ==> '{' !in ps[i].name && '}' !in ps[i].name
  }

  /** Parsing undoes unparsing, for fields whose names hold no braces. */
  lemma {:induction false} ParseUnparse(ps: seq<Piece>)
    requires PlainFields(ps)
    ensures Parse(Unparse(ps)) == Some(ps)
    decreases |ps|
  {
    if ps != [] {
      assert PlainFields(ps[1..]) by {
        forall i | 0 <= i < |ps| - 1 ensures ps[1..][i] == ps[i + 1] { }
      }
      ParseUnparse(ps[1..]);
      var rest := Unparse(ps[1..]);
      assert [ps[0]] + ps[1..] == ps;
      match ps[0]
      case Lit(c) =>
        if IsBrace(c) {
          ParseEscape(c, rest);
        } else {
          ParseLiteral(c, rest);
        }
      case Placeholder(name) =>
        assert ps[0].Placeholder?;
        ParseField(name, rest);
    }
  }

  lemma ParseEscape(c: char, rest: string)
    requires IsBrace(c)
    ensures Parse([c, c] + rest) == Cons(Lit(c), Parse(rest))
  {
    assert ([c, c] + rest)[2..] == rest;
  }

  lemma ParseLiteral(c: char, rest: string)
    requires !IsBrace(c)
    ensures Parse([c] + rest) == Cons(Lit(c), Parse(rest))
  {
    assert ([c] + rest)[1..] == rest;
  }

  lemma ParseField(name: string, rest: string)
    requires '{' !in name && '}' !in name
    ensures Parse("{" + name + "}" + rest) == Cons(Placeholder(name), Parse(rest))
  {
    var t := "{" + name + "}" + rest;
    assert t[1..] == name + ("}" + rest);
    FieldTextOf(name, "}" + rest);
    assert t[|name| + 1] == '}';
    assert t[|name| + 2..] == rest;
  }

  lemma {:induction false} FieldTextOf(name: string, rest: string)
    requires '{' !in name && '}' !in name
    requires rest != [] && IsBrace(rest[0])
    ensures FieldText(name + rest) == name
    decreases |name|
  {
    if name == [] {
      assert name + rest == rest;
    } else {
      assert (name + rest)[1..] == name[1..] + rest;
      FieldTextOf(name[1..], rest);
      assert [name[0]] + name[1..] == name;
    }
  }

  /** Unparsing undoes a successful parse: every template that parses is
      the text of its pieces. */
  lemma {:induction false} UnparseParse(t: string)
    requires Parse(t).Some?
    ensures Unparse(Parse(t).value) == t
    decreases |t|
  {
    if t != [] {
      var p, rest := ParseStep(t);
      UnparseParse(rest);
      UnparseCons(p, Parse(rest).value);
    }
  }

  /** One step of a successful parse: the first piece and the text after it. */
  lemma ParseStep(t: string) returns (p: Piece, rest: string)
    requires t != [] && Parse(t).Some?
    ensures |rest| < |t| && t == PieceText(p) + rest
    ensures Parse(rest).Some? && Parse(t).value == [p] + Parse(rest).value
  {
    if |t| >= 2 && t[0] == '{' && t[1] == '{' {
      p, rest := Lit('{'), t[2..];
      assert t == t[..2] + t[2..];
    } else if |t| >= 2 && t[0] == '}' && t[1] == '}' {
      p, rest := Lit('}'), t[2..];
      assert t == t[..2] + t[2..];
    } else if t[0] == '{' {
      var name := FieldText(t[1..]);
      p, rest := Placeholder(name), t[|name| + 2..];
      assert t == [t[0]] + t[1..][..|name|] + [t[|name| + 1]] + t[|name| + 2..];
    } else {
      p, rest := Lit(t[0]), t[1..];
      assert t == [t[0]] + t[1..];
    }
  }

  /** A template without braces formats to itself. */
  lemma {:induction false} FormatPlainText(t: string, context: map<string, string>)
    requires '{' !in t && '}' !in t
    ensures Format(t, context) == Some(t)
    decreases |t|
  {
    if t != [] {
      assert '{' !in t[1..] && '}' !in t[1..];
      FormatPlainText(t[1..], context);
      ParseLiteral(t[0], t[1..]);
      assert [t[0]] + t[1..] == t;
    }
  }

  /** Brace-free text as literal pieces. */
  function Lits(s: string): (ps: seq<Piece>)
    ensures |ps| == |s|
    ensures forall i :: 0 <= i < |s| ==> ps[i] == Lit(s[i])
  {
    seq(|s|, i requires 0 <= i < |s| => Lit(s[i]))
  }

  lemma {:induction false} UnparseAppend(a: seq<Piece>, b: seq<Piece>)
    ensures Unparse(a + b) == Unparse(a) + Unparse(b)
    decreases |a|
  {
    if a == [] {
      assert a + b == b;
    } else {
      assert (a + b)[1..] == a[1..] + b;
      UnparseAppend(a[1..], b);
    }
  }

  lemma {:induction false} RenderAppend(a: seq<Piece>, b: seq<Piece>, context: map<string, string>)
    ensures Render(a + b, context) == Join(Render(a, context), Render(b, context))
    decreases |a|
  {
    if a == [] {
      assert a + b == b;
      if Render(b, context).Some? { assert [] + Render(b, context).value == Render(b, context).value; }
    } else {
      assert (a + b)[1..] == a[1..] + b;
      assert (a + b)[0] == a[0];
      RenderAppend(a[1..], b, context);
      JoinAssociative(PieceValue(a[0], context), Render(a[1..], context), Render(b, context));
    }
  }

  lemma JoinAssociative(x: Option<string>, y: Option<string>, z: Option<string>)
    ensures Join(Join(x, y), z) == Join(x, Join(y, z))
  {
    if x.Some? && y.Some? && z.Some? {
      assert (x.value + y.value) + z.value == x.value + (y.value + z.value);
    }
  }

  lemma {:induction false} UnparseLits(s: string)
    requires '{' !in s && '}' !in s
    ensures Unparse(Lits(s)) == s
    decreases |s|
  {
    if s != [] {
      assert Lits(s)[1..] == Lits(s[1..]);
      assert '{' !in s[1..] && '}' !in s[1..];
      UnparseLits(s[1..]);
      assert [s[0]] + s[1..] == s;
    }
  }

  lemma {:induction false} RenderLits(s: string, context: map<string, string>)
    ensures Render(Lits(s), context) == Some(s)
    decreases |s|
  {
    if s != [] {
      assert Lits(s)[1..] == Lits(s[1..]);
      RenderLits(s[1..], context);
      assert [s[0]] + s[1..] == s;
    }
  }

  /** A template that is one resolvable field surrounded by brace-free text
      formats to that text with the field's value in place. */
  lemma FormatOneField(prefix: string, name: string, suffix: string, context: map<string, string>)
    requires '{' !in prefix && '}' !in prefix && '{' !in suffix && '}' !in suffix
    requires '{' !in name && '}' !in name && Resolves(name, context)
    ensures Format(prefix + ("{" + name + "}") + suffix, context) == Some(prefix + context[name] + suffix)
  {
    var ps := Lits(prefix) + [Placeholder(name)] + Lits(suffix);
    assert PlainFields(ps);
    UnparseOneField(prefix, name, suffix);
    ParseUnparse(ps);
    RenderOneField(prefix, name, suffix, context);
  }

  lemma UnparseOneField(prefix: string, name: string, suffix: string)
    requires '{' !in prefix && '}' !in prefix && '{' !in suffix && '}' !in suffix
    ensures Unparse(Lits(prefix) + [Placeholder(name)] + Lits(suffix)) == prefix + ("{" + name + "}") + suffix
  {
    var a, f, b := Lits(prefix), [Placeholder(name)], Lits(suffix);
    UnparseAppend(a + f, b);
    UnparseAppend(a, f);
    UnparseLits(prefix);
    UnparseLits(suffix);
    UnparseField(name);
  }

  lemma UnparseField(name: string)
    ensures Unparse([Placeholder(name)]) == "{" + name + "}"
  {
    UnparseCons(Placeholder(name), []);
    assert "{" + name + "}" + [] == "{" + name + "}";
  }

  lemma RenderOneField(prefix: string, name: string, suffix: string, context: map<string, string>)
    requires Resolves(name, context)
    ensures Render(Lits(prefix) + [Placeholder(name)] + Lits(suffix), context) == Some(prefix + context[name] + suffix)
  {
    RenderAppend(Lits(prefix) + [Placeholder(name)], Lits(suffix), context);
    RenderAppend(Lits(prefix), [Placeholder(name)], context);
    RenderLits(prefix, context);
    RenderLits(suffix, context);
    assert [Placeholder(name)][1..] == [];
    assert Render([Placeholder(name)], context) == Some(context[name] + []);
    assert context[name] + [] == context[name];
  }
}
