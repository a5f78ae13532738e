/**
 * Template expansion as the Jinja templates do it: a rendered fragment is a
 * sequence of pieces, each either text of the template itself or a value
 * substituted into it; the file receives the pieces' text concatenated.
 * The parsers read values back from a piece sequence and are the inverses
 * of the loop forms.
 */
module Template {
  import opened Text

  datatype Piece = Lit(text: string) | Val(text: string)

  lemma SeqAssoc(a: seq<Piece>, b: seq<Piece>, rest: seq<Piece>)
    ensures a + b + rest == a + (b + rest)
  {
  }

  /** The text a piece sequence renders to. */
  function Flatten(ps: seq<Piece>): string {
    if ps == [] then "" else ps[0].text + Flatten(ps[1..])
  }

  lemma {:induction false} FlattenAppend(a: seq<Piece>, b: seq<Piece>)
    ensures Flatten(a + b) == Flatten(a) + Flatten(b)
  {
    if a == [] {
      assert a + b == b;
    } else {
      assert (a + b)[1..] == a[1..] + b;
      FlattenAppend(a[1..], b);
    }
  }

  /** Every substituted value appears verbatim in the rendered text. */
  lemma {:induction false} ValueAppearsInText(ps: seq<Piece>, i: nat)
    requires i < |ps| && ps[i].Val?
    ensures Contains(Flatten(ps), ps[i].text)
  {
    assert ps == ps[..i] + ([ps[i]] + ps[i + 1..]);
    FlattenAppend(ps[..i], [ps[i]] + ps[i + 1..]);
    FlattenAppend([ps[i]], ps[i + 1..]);
    assert Flatten([ps[i]]) == ps[i].text;
    var k := |Flatten(ps[..i])|;
    assert ps[i].text <= Flatten(ps)[k..];
  }

  /** How many pieces equal `p`. */
  function Occurrences(ps: seq<Piece>, p: Piece): nat {
    if ps == [] then 0 else (if ps[0] == p then 1 else 0) + Occurrences(ps[1..], p)
  }

  lemma {:induction false} OccurrencesAppend(a: seq<Piece>, b: seq<Piece>, p: Piece)
    ensures Occurrences(a + b, p) == Occurrences(a, p) + Occurrences(b, p)
  {
    if a == [] {
      assert a + b == b;
    } else {
      assert (a + b)[1..] == a[1..] + b;
      OccurrencesAppend(a[1..], b, p);
    }
  }

  lemma {:induction false} OccurrencesAbsent(ps: seq<Piece>, p: Piece)
    requires p !in ps
    ensures Occurrences(ps, p) == 0
  {
    if ps != [] {
      assert ps == [ps[0]] + ps[1..];
      OccurrencesAbsent(ps[1..], p);
    }
  }

  lemma OccurrencesOnlyFirst(ps: seq<Piece>, p: Piece)
    requires |ps| > 0 && ps[0] == p && p !in ps[1..]
    ensures Occurrences(ps, p) == 1
  {
    OccurrencesAbsent(ps[1..], p);
  }

  lemma OccurrencesOfFour(a: seq<Piece>, b: seq<Piece>, c: seq<Piece>, d: seq<Piece>, p: Piece)
    ensures Occurrences(a + b + c + d, p) == Occurrences(a, p) + Occurrences(b, p) + Occurrences(c, p) + Occurrences(d, p)
  {
    OccurrencesAppend(a, b, p);
    OccurrencesAppend(a + b, c, p);
    OccurrencesAppend(a + b + c, d, p);
  }

  lemma OccurrencesOfFive(a: seq<Piece>, b: seq<Piece>, c: seq<Piece>, d: seq<Piece>, e: seq<Piece>, p: Piece)
    ensures Occurrences(a + b + c + d + e, p)
      == Occurrences(a, p) + Occurrences(b, p) + Occurrences(c, p) + Occurrences(d, p) + Occurrences(e, p)
  {
    OccurrencesOfFour(a, b, c, d, p);
    OccurrencesAppend(a + b + c + d, e, p);
  }

  /** The count agrees with the multiset of the pieces. */
  lemma {:induction false} OccurrencesIsMultiplicity(ps: seq<Piece>, p: Piece)
    ensures Occurrences(ps, p) == multiset(ps)[p]
  {
    if ps != [] {
      assert ps == [ps[0]] + ps[1..];
      OccurrencesIsMultiplicity(ps[1..], p);
    }
  }

  // ---------------------------------------------------------------------
  // {% for x in xs %}{{ x }}{% if not loop.last %}sep{% endif %}{% endfor %}
  // ---------------------------------------------------------------------

  /** The loop from position `i` on: each value, followed by `sep` unless it is the last. */
  function LoopLastFrom(xs: seq<string>, i: nat, sep: string): seq<Piece>
    decreases |xs| - i
  {
    if i >= |xs| then []
    else if i == |xs| - 1 then [Val(xs[i])]
    else [Val(xs[i]), Lit(sep)] + LoopLastFrom(xs, i + 1, sep)
  }

  function LoopLast(xs: seq<string>, sep: string): seq<Piece> {
    LoopLastFrom(xs, 0, sep)
  }

  lemma {:induction false} LoopLastFromIsJoin(xs: seq<string>, i: nat, sep: string)
    requires i <= |xs|
    ensures Flatten(LoopLastFrom(xs, i, sep)) == Join(sep, xs[i..])
    decreases |xs| - i
  {
    if i == |xs| - 1 {
      assert xs[i..] == [xs[i]];
    } else if i < |xs| {
      LoopLastFromIsJoin(xs, i + 1, sep);
      var pair := [Val(xs[i]), Lit(sep)];
      FlattenAppend(pair, LoopLastFrom(xs, i + 1, sep));
      assert Flatten(pair) == xs[i] + sep;
      assert xs[i..][1..] == xs[i + 1..];
    }
  }

  /**
   * The loop.last idiom renders exactly what `sep.join(xs)` does: the separator
   * between consecutive values and none after the last.
   */
  lemma LoopLastIsJoin(xs: seq<string>, sep: string)
    ensures Flatten(LoopLast(xs, sep)) == Join(sep, xs)
  {
    LoopLastFromIsJoin(xs, 0, sep);
    assert xs[0..] == xs;
  }

  lemma {:induction false} OccurrencesLoopLastFrom(xs: seq<string>, i: nat, sep: string, p: Piece)
    requires p != Lit(sep) && !p.Val?
    ensures Occurrences(LoopLastFrom(xs, i, sep), p) == 0
    decreases |xs| - i
  {
    if i < |xs| - 1 {
      OccurrencesLoopLastFrom(xs, i + 1, sep, p);
      var pair := [Val(xs[i]), Lit(sep)];
      OccurrencesAppend(pair, LoopLastFrom(xs, i + 1, sep), p);
      assert pair[1..] == [Lit(sep)] && pair[1..][1..] == [];
    }
  }

  /** A piece sequence that a list parser must stop at: empty, or starting with other template text. */
  predicate StopsBefore(rest: seq<Piece>, lit: string) {
    rest == [] || (rest[0].Lit? && rest[0].text != lit)
  }

  /** Reads values separated by `sep`: the inverse of the loop.last form. */
  function ParseSeparated(ps: seq<Piece>, sep: string): (r: (seq<string>, seq<Piece>))
    ensures |r.1| <= |ps|
  {
    if |ps| > 0 && ps[0].Val? then
      if |ps| > 1 && ps[1] == Lit(sep) then
        var (more, rest) := ParseSeparated(ps[2..], sep);
        ([ps[0].text] + more, rest)
      else ([ps[0].text], ps[1..])
    else ([], ps)
  }

  lemma {:induction false} ParseLoopLastFrom(xs: seq<string>, i: nat, sep: string, rest: seq<Piece>)
    requires i <= |xs|
    requires StopsBefore(rest, sep)
    ensures ParseSeparated(LoopLastFrom(xs, i, sep) + rest, sep) == (xs[i..], rest)
    decreases |xs| - i
  {
    if i == |xs| {
      assert LoopLastFrom(xs, i, sep) + rest == rest;
      assert xs[i..] == [];
    } else if i == |xs| - 1 {
      ParseLastValue(xs, i, sep, rest);
    } else {
      ParseLoopLastFrom(xs, i + 1, sep, rest);
      ParseInnerValue(xs, i, sep, rest);
    }
  }

  lemma ParseLastValue(xs: seq<string>, i: nat, sep: string, rest: seq<Piece>)
    requires i == |xs| - 1
    requires StopsBefore(rest, sep)
    ensures ParseSeparated(LoopLastFrom(xs, i, sep) + rest, sep) == (xs[i..], rest)
  {
    var ps := [Val(xs[i])] + rest;
    assert ps[1..] == rest;
    assert xs[i..] == [xs[i]];
  }

  lemma ParseInnerValue(xs: seq<string>, i: nat, sep: string, rest: seq<Piece>)
    requires i < |xs| - 1
    requires ParseSeparated(LoopLastFrom(xs, i + 1, sep) + rest, sep) == (xs[i + 1..], rest)
    ensures ParseSeparated(LoopLastFrom(xs, i, sep) + rest, sep) == (xs[i..], rest)
  {
    var tail := LoopLastFrom(xs, i + 1, sep);
    var pair := [Val(xs[i]), Lit(sep)];
    SeqAssoc(pair, tail, rest);
    ParseSeparatedPair(xs[i], sep, tail + rest);
    assert xs[i..] == [xs[i]] + xs[i + 1..];
  }

  lemma ParseSeparatedPair(x: string, sep: string, tail: seq<Piece>)
    ensures var r := ParseSeparated(tail, sep);
      ParseSeparated([Val(x), Lit(sep)] + tail, sep) == ([x] + r.0, r.1)
  {
    var ps := [Val(x), Lit(sep)] + tail;
    assert ps[2..] == tail;
  }

  /** Parsing what the loop.last form rendered gives back the values and stops at `rest`. */
  lemma ParseLoopLast(xs: seq<string>, sep: string, rest: seq<Piece>)
    requires StopsBefore(rest, sep)
    ensures ParseSeparated(LoopLast(xs, sep) + rest, sep) == (xs, rest)
  {
    ParseLoopLastFrom(xs, 0, sep, rest);
    assert xs[0..] == xs;
  }

  // ---------------------------------------------------------------------
  // {% for x in xs %}open{{ x }}close{% endfor %}
  // ---------------------------------------------------------------------

  function Repeat(xs: seq<string>, open: string, close: string): seq<Piece> {
    if xs == [] then [] else [Lit(open), Val(xs[0]), Lit(close)] + Repeat(xs[1..], open, close)
  }

  /** Reads `open value close` groups: the inverse of Repeat. */
  function ParseRepeated(ps: seq<Piece>, open: string, close: string): (r: (seq<string>, seq<Piece>))
    ensures |r.1| <= |ps|
  {
    if |ps| >= 3 && ps[0] == Lit(open) && ps[1].Val? && ps[2] == Lit(close) then
      var (more, rest) := ParseRepeated(ps[3..], open, close);
      ([ps[1].text] + more, rest)
    else ([], ps)
  }

  lemma ParseRepeatedGroup(x: string, open: string, close: string, tail: seq<Piece>)
    ensures var r := ParseRepeated(tail, open, close);
      ParseRepeated([Lit(open), Val(x), Lit(close)] + tail, open, close) == ([x] + r.0, r.1)
  {
    var ps := [Lit(open), Val(x), Lit(close)] + tail;
    assert ps[3..] == tail;
  }

  /** Parsing what Repeat rendered gives back the values, in order, and stops at `rest`. */
  lemma {:induction false} ParseRepeat(xs: seq<string>, open: string, close: string, rest: seq<Piece>)
    requires StopsBefore(rest, open)
    ensures ParseRepeated(Repeat(xs, open, close) + rest, open, close) == (xs, rest)
  {
    if xs == [] {
      assert Repeat(xs, open, close) + rest == rest;
    } else {
      ParseRepeat(xs[1..], open, close, rest);
      ParseRepeatStep(xs, open, close, rest);
    }
  }

  lemma ParseRepeatStep(xs: seq<string>, open: string, close: string, rest: seq<Piece>)
    requires xs != []
    requires ParseRepeated(Repeat(xs[1..], open, close) + rest, open, close) == (xs[1..], rest)
    ensures ParseRepeated(Repeat(xs, open, close) + rest, open, close) == (xs, rest)
  {
    var group := [Lit(open), Val(xs[0]), Lit(close)];
    assert Repeat(xs, open, close) == group + Repeat(xs[1..], open, close);
    SeqAssoc(group, Repeat(xs[1..], open, close), rest);
    ParseRepeatedGroup(xs[0], open, close, Repeat(xs[1..], open, close) + rest);
    assert xs == [xs[0]] + xs[1..];
  }

  /** Each value gets exactly one `open` piece. */
  lemma {:induction false} OccurrencesRepeat(xs: seq<string>, open: string, close: string)
    requires open != close
    ensures Occurrences(Repeat(xs, open, close), Lit(open)) == |xs|
  {
    if xs != [] {
      var group := [Lit(open), Val(xs[0]), Lit(close)];
      OccurrencesRepeat(xs[1..], open, close);
      OccurrencesAppend(group, Repeat(xs[1..], open, close), Lit(open));
      assert group[1..] == [Val(xs[0]), Lit(close)] && group[1..][1..] == [Lit(close)] && group[1..][1..][1..] == [];
      assert Occurrences([Lit(close)], Lit(open)) == 0;
      assert Occurrences(group[1..], Lit(open)) == 0;
    }
  }

  lemma {:induction false} OccurrencesRepeatOther(xs: seq<string>, open: string, close: string, p: Piece)
    requires p != Lit(open) && p != Lit(close) && !p.Val?
    ensures Occurrences(Repeat(xs, open, close), p) == 0
  {
    if xs != [] {
      var group := [Lit(open), Val(xs[0]), Lit(close)];
      OccurrencesRepeatOther(xs[1..], open, close, p);
      OccurrencesAppend(group, Repeat(xs[1..], open, close), p);
      assert group[1..] == [Val(xs[0]), Lit(close)] && group[1..][1..] == [Lit(close)] && group[1..][1..][1..] == [];
      assert Occurrences([Lit(close)], p) == 0;
      assert Occurrences(group[1..], p) == 0;
    }
  }
}
