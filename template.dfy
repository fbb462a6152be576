/** The substitution pass of `generate_model`: one left-to-right `re.sub`
    with the pattern `@(\w+)`, each match replaced by the rendered value of
    the parameter it names. */
module Template {
  import opened Wrappers
  import opened Values

  /** A character of the regular-expression class `\w`, restricted to ASCII. */
  predicate IsWordChar(c: char) {
    ('a' <= c <= 'z') || ('A' <= c <= 'Z') || ('0' <= c <= '9') || c == '_'
  }

  /** A non-empty run of word characters: what `(\w+)` captures. */
  predicate IsName(s: string) {
    |s| > 0 && forall i :: 0 <= i < |s| ==> IsWordChar(s[i])
  }

  /** The length of the longest run of word characters at the start of `s`. */
  function WordRun(s: string): (n: nat)
    ensures n <= |s|
    ensures forall i :: 0 <= i < n ==> IsWordChar(s[i])
    ensures n < |s| ==> !IsWordChar(s[n])
  {
    if s == [] || !IsWordChar(s[0]) then 0 else 1 + WordRun(s[1..])
  }

  /** A placeholder starts at position `i` of `t`. */
  predicate TokenAt(t: string, i: int) {
    0 <= i && i + 1 < |t| && t[i] == '@' && IsWordChar(t[i + 1])
  }

  /** The substitution pass.  At each position: an `@` followed by word
      characters is a placeholder, and the longest such run is its name; the
      name is looked up in `params` (a missing name raises `KeyError`) and the
      rendered value is emitted, after which scanning resumes behind the name
      (the emitted text is never scanned).  Any other character is copied. */
  function Substitute(t: string, params: map<string, Value>, formatFloat: real -> string): (r: Result<string, Error>)
    ensures r.Failure? ==> r.error.KeyError? && r.error.key !in params
    decreases |t|
  {
    if t == [] then Success([])
    else if t[0] == '@' && WordRun(t[1..]) > 0 then
      var n := WordRun(t[1..]);
      var name := t[1..1 + n];
      if name !in params then Failure(KeyError(name))
      else
        var rest :- Substitute(t[1 + n..], params, formatFloat);
        Success(Render(params[name], formatFloat) + rest)
    else
      var rest :- Substitute(t[1..], params, formatFloat);
      Success([t[0]] + rest)
  }

  // ---------------------------------------------------------------------
  // A declarative account of the pass: a template is a sequence of pieces,
  // literal characters and placeholders.

  datatype Piece = Char(c: char) | Placeholder(name: string)

  /** The template text a sequence of pieces spells. */
  function Join(ps: seq<Piece>): string {
    if ps == [] then []
    else
      match ps[0]
      case Char(c) => [c] + Join(ps[1..])
      case Placeholder(name) => "@" + name + Join(ps[1..])
  }

  predicate StartsWithWordChar(ps: seq<Piece>) {
    |ps| > 0 && ps[0].Char? && IsWordChar(ps[0].c)
  }

  /** A well-formed decomposition: placeholder names are runs of word
      characters that are not followed by another word character (the
      longest run), and a literal `@` is never followed by a word character
      (else it would start a placeholder). */
  predicate WellFormed(ps: seq<Piece>) {
    ps == [] ||
    (&& (ps[0].Placeholder? ==> IsName(ps[0].name))
     && (ps[0].Placeholder? || ps[0] == Char('@') ==> !StartsWithWordChar(ps[1..]))
     && WellFormed(ps[1..]))
  }

  /** The result of the pass on a decomposed template: literal characters
      verbatim, each placeholder replaced by its rendered value, in order;
      the first undefined name is the error. */
  function Expand(ps: seq<Piece>, params: map<string, Value>, formatFloat: real -> string): Result<string, Error> {
    if ps == [] then Success([])
    else
      match ps[0]
      case Char(c) =>
        var rest :- Expand(ps[1..], params, formatFloat);
        Success([c] + rest)
      case Placeholder(name) =>
        if name !in params then Failure(KeyError(name))
        else
          var rest :- Expand(ps[1..], params, formatFloat);
          Success(Render(params[name], formatFloat) + rest)
  }

  /** The decomposition the pass finds. */
  function Tokenize(t: string): (ps: seq<Piece>)
    ensures WellFormed(ps) && Join(ps) == t
    decreases |t|
  {
    if t == [] then []
    else if t[0] == '@' && WordRun(t[1..]) > 0 then
      var n := WordRun(t[1..]);
      var rest := t[1 + n..];
      assert rest == [] || (rest[0] == t[1..][n] && !IsWordChar(rest[0]));
      var tail := Tokenize(rest);
      JoinHead(tail);
      ConsParts(Placeholder(t[1..1 + n]), tail);
      assert t == "@" + t[1..1 + n] + rest;
      [Placeholder(t[1..1 + n])] + tail
    else
      assert t[0] == '@' ==> |t| == 1 || !IsWordChar(t[1..][0]);
      var tail := Tokenize(t[1..]);
      ConsParts(Char(t[0]), tail);
      assert t == [t[0]] + t[1..];
      [Char(t[0])] + tail
  }

  lemma ConsParts(p: Piece, ps: seq<Piece>)
    ensures ([p] + ps)[0] == p && ([p] + ps)[1..] == ps
  {
  }

  // ---------------------------------------------------------------------
  // Lemmas

  /** The text of a well-formed tail does not begin with a word character. */
  lemma JoinHead(ps: seq<Piece>)
    requires !StartsWithWordChar(ps)
    ensures Join(ps) == [] || !IsWordChar(Join(ps)[0])
  {
    if ps != [] {
      match ps[0]
      case Char(c) =>
        assert Join(ps)[0] == c;
      case Placeholder(name) =>
        assert Join(ps)[0] == '@';
    }
  }

  /** A name followed by a non-word character is a maximal run. */
  lemma WordRunOfName(name: string, u: string)
    requires IsName(name)
    requires u == [] || !IsWordChar(u[0])
    ensures WordRun(name + u) == |name|
  {
    var s := name + u;
    assert forall i :: 0 <= i < |name| ==> s[i] == name[i];
    assert |name| < |s| ==> s[|name|] == u[0];
  }

  /** A character that does not start a placeholder is copied, and
      scanning resumes right behind it. */
  lemma CopiedChar(c: char, u: string, params: map<string, Value>, formatFloat: real -> string)
    requires c != '@' || u == [] || !IsWordChar(u[0])
    ensures Tokenize([c] + u) == [Char(c)] + Tokenize(u)
    ensures Substitute([c] + u, params, formatFloat) ==
      match Substitute(u, params, formatFloat)
      case Success(rest) => Success([c] + rest)
      case Failure(e) => Failure(e)
  {
    var t := [c] + u;
    assert t[1..] == u;
    assert t[0] == c;
    assert c == '@' ==> WordRun(u) == 0;
  }

  /** Every well-formed decomposition of a template is the one the pass
      finds: a template's placeholders are determined by its text. */
  lemma {:induction false} TokenizeUnique(ps: seq<Piece>)
    requires WellFormed(ps)
    ensures Tokenize(Join(ps)) == ps
  {
    if ps != [] {
      var tail := ps[1..];
      TokenizeUnique(tail);
      if ps[0].Placeholder? || ps[0] == Char('@') {
        JoinHead(tail);
      }
      match ps[0]
      case Char(c) =>
        assert Join(ps) == [c] + Join(tail);
        CopiedChar(c, Join(tail), map[], x => "");
      case Placeholder(name) =>
        assert Join(ps) == "@" + name + Join(tail);
        LongestName(name, Join(tail), map[], x => "");
    }
  }

  /** The pass computes the expansion of any well-formed decomposition of
      the template (in particular of `Tokenize(t)`). */
  lemma {:induction false} SubstituteIsExpand(t: string, ps: seq<Piece>, params: map<string, Value>, formatFloat: real -> string)
    requires WellFormed(ps) && Join(ps) == t
    ensures Substitute(t, params, formatFloat) == Expand(ps, params, formatFloat)
    decreases ps
  {
    if ps != [] {
      var tail := ps[1..];
      SubstituteIsExpand(Join(tail), tail, params, formatFloat);
      if ps[0].Placeholder? || ps[0] == Char('@') {
        JoinHead(tail);
      }
      match ps[0]
      case Char(c) =>
        assert t == [c] + Join(tail);
        CopiedChar(c, Join(tail), params, formatFloat);
      case Placeholder(name) =>
        assert t == "@" + name + Join(tail);
        LongestName(name, Join(tail), params, formatFloat);
    }
  }

  /** A piece that names a parameter the map lacks. */
  predicate Undefined(p: Piece, params: map<string, Value>) {
    p.Placeholder? && p.name !in params
  }

  /** The expansion fails exactly when some placeholder is undefined, and it
      reports the leftmost one. */
  lemma {:induction false} ExpandFails(ps: seq<Piece>, params: map<string, Value>, formatFloat: real -> string)
    ensures Expand(ps, params, formatFloat).Failure? <==> exists i :: 0 <= i < |ps| && Undefined(ps[i], params)
    ensures Expand(ps, params, formatFloat).Failure? ==>
      exists i :: 0 <= i < |ps| && Undefined(ps[i], params) &&
        Expand(ps, params, formatFloat).error == KeyError(ps[i].name) &&
        forall j :: 0 <= j < i ==> !Undefined(ps[j], params)
  {
    if ps != [] {
      var tail := ps[1..];
      ExpandFails(tail, params, formatFloat);
      if Undefined(ps[0], params) {
        assert Expand(ps, params, formatFloat).error == KeyError(ps[0].name);
      } else {
        assert Expand(ps, params, formatFloat).Failure? <==> Expand(tail, params, formatFloat).Failure?;
        if Expand(tail, params, formatFloat).Failure? {
          var i :| 0 <= i < |tail| && Undefined(tail[i], params) &&
            Expand(tail, params, formatFloat).error == KeyError(tail[i].name) &&
            forall j :: 0 <= j < i ==> !Undefined(tail[j], params);
          assert ps[i + 1] == tail[i];
          assert forall j :: 0 <= j < i + 1 ==> !Undefined(ps[j], params) by {
            forall j | 0 <= j < i + 1 ensures !Undefined(ps[j], params) {
              if j > 0 { assert ps[j] == tail[j - 1]; }
            }
          }
        } else {
          forall i | 0 <= i < |ps| ensures !Undefined(ps[i], params) {
            if i > 0 { assert ps[i] == tail[i - 1]; }
          }
        }
      }
    }
  }

  /** The pass fails exactly when a placeholder of the template names a
      missing parameter, and then reports the leftmost such name. */
  lemma SubstituteFails(t: string, params: map<string, Value>, formatFloat: real -> string)
    ensures var ps := Tokenize(t);
      Substitute(t, params, formatFloat).Failure? <==> exists i :: 0 <= i < |ps| && Undefined(ps[i], params)
    ensures var ps := Tokenize(t);
      Substitute(t, params, formatFloat).Failure? ==>
        exists i :: 0 <= i < |ps| && Undefined(ps[i], params) &&
          Substitute(t, params, formatFloat).error == KeyError(ps[i].name) &&
          forall j :: 0 <= j < i ==> !Undefined(ps[j], params)
  {
    var ps := Tokenize(t);
    SubstituteIsExpand(t, ps, params, formatFloat);
    ExpandFails(ps, params, formatFloat);
    assert Substitute(t, params, formatFloat) == Expand(ps, params, formatFloat);
  }

  /** A template without placeholders comes back unchanged, whatever the map. */
  lemma {:induction false} NoPlaceholderUnchanged(t: string, params: map<string, Value>, formatFloat: real -> string)
    requires forall i :: !TokenAt(t, i)
    ensures Substitute(t, params, formatFloat) == Success(t)
    decreases |t|
  {
    if t != [] {
      assert !TokenAt(t, 0);
      assert t[0] == '@' && WordRun(t[1..]) > 0 ==> TokenAt(t, 0);
      forall i ensures !TokenAt(t[1..], i) {
        assert TokenAt(t[1..], i) ==> TokenAt(t, i + 1);
      }
      NoPlaceholderUnchanged(t[1..], params, formatFloat);
      assert [t[0]] + t[1..] == t;
    }
  }

  /** A placeholder's name is the longest run of word characters after the
      `@`: the pass looks up exactly that name, inserts its rendered value
      as it is, and continues with the text behind the name. */
  lemma LongestName(name: string, u: string, params: map<string, Value>, formatFloat: real -> string)
    requires IsName(name)
    requires u == [] || !IsWordChar(u[0])
    ensures Tokenize("@" + name + u) == [Placeholder(name)] + Tokenize(u)
    ensures name !in params ==> Substitute("@" + name + u, params, formatFloat) == Failure(KeyError(name))
    ensures name in params ==>
      Substitute("@" + name + u, params, formatFloat) ==
        match Substitute(u, params, formatFloat)
        case Success(rest) => Success(Render(params[name], formatFloat) + rest)
        case Failure(e) => Failure(e)
  {
    var t := "@" + name + u;
    assert t[1..] == name + u;
    WordRunOfName(name, u);
    assert t[1..1 + |name|] == name;
    assert t[1 + |name|..] == u;
  }

  /** `@mass_x` looks up `mass_x`, never `mass`. */
  lemma MassXExample(params: map<string, Value>, formatFloat: real -> string)
    requires "mass" in params && "mass_x" !in params
    ensures Substitute("@mass_x", params, formatFloat) == Failure(KeyError("mass_x"))
  {
    LongestName("mass_x", "", params, formatFloat);
    assert "@" + "mass_x" + "" == "@mass_x";
  }

  /** An `@` not followed by a word character is copied: `@@x` keeps the
      first `@` and substitutes `@x`. */
  lemma DoubleAtExample(params: map<string, Value>, formatFloat: real -> string)
    requires "x" in params
    ensures Substitute("@@x", params, formatFloat) == Success("@" + Render(params["x"], formatFloat))
  {
    assert "@@x" == ['@'] + "@x";
    CopiedChar('@', "@x", params, formatFloat);
    assert "@x" == "@" + "x" + "";
    LongestName("x", "", params, formatFloat);
    assert Substitute("", params, formatFloat) == Success([]);
    var r := Render(params["x"], formatFloat);
    assert Substitute("@x", params, formatFloat) == Success(r + []);
    assert r + [] == r;
    assert ['@'] + r == "@" + r;
  }

  /** The pass is not recursive: a value that itself reads `@foo` appears
      literally, whether or not `foo` is defined. */
  lemma NoReexpansionExample(params: map<string, Value>, formatFloat: real -> string)
    requires "a" in params && params["a"] == Str("@foo")
    ensures Substitute("@a", params, formatFloat) == Success("@foo")
  {
    LongestName("a", "", params, formatFloat);
    assert "@" + "a" + "" == "@a";
    assert Substitute("", params, formatFloat) == Success([]);
    assert Render(params["a"], formatFloat) + [] == "@foo";
  }
}
