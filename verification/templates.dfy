/** Python's `str.format` (and a prompt template's `format`) over templates
    whose placeholders are plain names: every placeholder is replaced by the
    string form of its argument, a placeholder without an argument raises
    KeyError, and arguments without a placeholder are ignored. */
module Templates {
  import opened Wrappers
  import opened Json
  import Strings

  datatype Piece = Lit(text: string) | Hole(name: string)

  type Template = seq<Piece>

  /** The template has a `{name}` placeholder. */
  predicate Mentions(t: Template, name: string) {
    exists i :: 0 <= i < |t| && t[i] == Hole(name)
  }

  /** Every placeholder has an argument. */
  predicate Covers(t: Template, args: map<string, string>) {
    forall i :: 0 <= i < |t| && t[i].Hole? ==> t[i].name in args
  }

  function Format(t: Template, args: map<string, string>): (r: PyResult<string>)
    ensures r.Success? <==> Covers(t, args)
    ensures r.Failure? ==> r.error.KeyError? && Mentions(t, r.error.key)
  {
    if |t| == 0 then Success("")
    else
      var head :-
        match t[0]
        case Lit(s) => Success(s)
        case Hole(n) => if n in args then Success(args[n]) else Failure(KeyError(n));
      var rest :- Format(t[1..], args);
      assert forall i :: 0 < i < |t| ==> t[i] == t[1..][i - 1];
      Success(head + rest)
  }

  /** What one piece contributes. */
  function PieceText(p: Piece, args: map<string, string>): string
    requires p.Hole? ==> p.name in args
  {
    match p
    case Lit(s) => s
    case Hole(n) => args[n]
  }

  lemma CoversAppend(a: Template, b: Template, args: map<string, string>)
    requires Covers(a, args) && Covers(b, args)
    ensures Covers(a + b, args)
  {
    forall i | 0 <= i < |a + b| && (a + b)[i].Hole? ensures (a + b)[i].name in args {
      if i < |a| {
        assert (a + b)[i] == a[i];
      } else {
        assert (a + b)[i] == b[i - |a|];
      }
    }
  }

  lemma CoversTail(t: Template, args: map<string, string>)
    requires |t| > 0 && Covers(t, args)
    ensures Covers(t[1..], args)
  {
    forall i | 0 <= i < |t[1..]| && t[1..][i].Hole? ensures t[1..][i].name in args {
      assert t[1..][i] == t[i + 1];
    }
  }

  /** Formatting a concatenation formats each part. */
  lemma {:induction false} FormatAppend(a: Template, b: Template, args: map<string, string>)
    requires Covers(a, args) && Covers(b, args)
    ensures Covers(a + b, args)
    ensures Format(a + b, args).value == Format(a, args).value + Format(b, args).value
  {
    CoversAppend(a, b, args);
    if |a| == 0 {
      assert a + b == b;
    } else {
      CoversTail(a, args);
      FormatAppend(a[1..], b, args);
      assert (a + b)[0] == a[0];
      assert (a + b)[1..] == a[1..] + b;
    }
  }

  /** A one-piece template. */
  lemma FormatPiece(p: Piece, args: map<string, string>)
    requires p.Hole? ==> p.name in args
    ensures Covers([p], args) && Format([p], args) == Success(PieceText(p, args))
  {
    assert [p][1..] == [] && [p][0] == p;
    assert Format([p][1..], args) == Success("");
    assert PieceText(p, args) + "" == PieceText(p, args);
  }

  /** A template is the pieces one after the other. */
  lemma {:induction false} FormatCons(p: Piece, t: Template, args: map<string, string>)
    requires p.Hole? ==> p.name in args
    requires Covers(t, args)
    ensures Covers([p] + t, args)
    ensures Format([p] + t, args).value == PieceText(p, args) + Format(t, args).value
  {
    FormatPiece(p, args);
    FormatAppend([p], t, args);
  }

  /** A template is the pieces one after the other, read from the left. */
  lemma FormatSnoc(t: Template, p: Piece, args: map<string, string>)
    requires Covers(t, args)
    requires p.Hole? ==> p.name in args
    ensures Covers(t + [p], args)
    ensures Format(t + [p], args).value == Format(t, args).value + PieceText(p, args)
  {
    FormatPiece(p, args);
    FormatAppend(t, [p], args);
  }

  /** Changing an argument the template does not mention changes nothing. */
  lemma {:induction false} FormatIgnoresUnmentioned(t: Template, args: map<string, string>, name: string, v: string)
    requires !Mentions(t, name)
    ensures Format(t, args[name := v]) == Format(t, args)
  {
    if |t| > 0 {
      assert !Mentions(t[1..], name) by {
        forall i | 0 <= i < |t[1..]| ensures t[1..][i] != Hole(name) {
          assert t[1..][i] == t[i + 1];
        }
      }
      FormatIgnoresUnmentioned(t[1..], args, name, v);
      assert t[0] != Hole(name);
    }
  }

  /** Occurrences of `c` in the literal text of the template. */
  function LitCount(c: char, t: Template): nat {
    if |t| == 0 then 0
    else (if t[0].Lit? then Strings.CountChar(c, t[0].text) else 0) + LitCount(c, t[1..])
  }

  /** When no argument a placeholder uses contains `c`, the result has exactly
      the occurrences of `c` the literal text has. */
  lemma {:induction false} FormatCountChar(c: char, t: Template, args: map<string, string>)
    requires Covers(t, args)
    requires forall i :: 0 <= i < |t| && t[i].Hole? ==> Strings.CountChar(c, args[t[i].name]) == 0
    ensures Strings.CountChar(c, Format(t, args).value) == LitCount(c, t)
  {
    if |t| > 0 {
      assert forall i :: 0 <= i < |t| - 1 ==> t[1..][i] == t[i + 1];
      FormatCountChar(c, t[1..], args);
      FormatCons(t[0], t[1..], args);
      assert [t[0]] + t[1..] == t;
      Strings.CountCharConcat(c, PieceText(t[0], args), Format(t[1..], args).value);
    }
  }
}
