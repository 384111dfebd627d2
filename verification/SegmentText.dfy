/** The same reading from the printed characters, by a scanner that does not know how they were put together. */
module SegmentText {
  import opened Wrappers
  import opened SegmentDsl
  import opened SegmentReading

  // ---------------------------------------------------------------- scanning

  /** Where the first quote is; the whole length when there is none. */
  function QuoteEnd(s: string): (n: nat)
    ensures n <= |s|
  {
    if s == "" || s[0] == '\'' then 0 else 1 + QuoteEnd(s[1..])
  }

  /** Connectives, parentheses, marks and quoted texts are cut out; everything else stays letter by letter. */
  function Scan(s: string): seq<Token>
    decreases |s|
  {
    if s == "" then []
    else if " AND " <= s then [And] + Scan(s[5..])
    else if " OR " <= s then [Or] + Scan(s[4..])
    else if s[0] == '(' then [Open] + Scan(s[1..])
    else if s[0] == ')' then [Close] + Scan(s[1..])
    else if s[0] == '?' then [Mark(None)] + Scan(s[1..])
    else if s[0] == '\'' then
      var n := QuoteEnd(s[1..]);
      [Literal(s[1..n + 1])] + if n + 2 <= |s| then Scan(s[n + 2..]) else []
    else [Lexeme([s[0]])] + Scan(s[1..])
  }

  function Letters(text: string): seq<Token> {
    seq(|text|, i requires 0 <= i < |text| => Lexeme([text[i]]))
  }

  /** A printed token as it is scanned: words fall into letters, placeholders lose their values. */
  function Fine(t: Token): seq<Token> {
    match t
    case Lexeme(text) => Letters(text)
    case Mark(_) => [Mark(None)]
    case _ => [t]
  }

  function FineAll(ts: seq<Token>): seq<Token> {
    if ts == [] then [] else Fine(ts[0]) + FineAll(ts[1..])
  }

  /** Tokens of printed texts: plain words, and quoted texts without a quote. */
  predicate Spelled(ts: seq<Token>) {
    forall t | t in ts :: (t.Lexeme? ==> Plain(t.text)) && (t.Literal? ==> '\'' !in t.literal)
  }

  lemma {:induction false} TokensAreSpelled(sql: Sql)
    ensures Spelled(Tokens(sql))
  {
    hide Plain;
    match sql {
      case Paren(inner) => TokensAreSpelled(inner);
      case Cat(first, second) =>
        TokensAreSpelled(first);
        TokensAreSpelled(second);
      case _ =>
    }
  }

  predicate At(s: string, i: nat, c: char) { i < |s| && s[i] == c }

  /** No connective could end at the start of this text. */
  predicate Settled(s: string) {
    && !At(s, 0, 'D') && !At(s, 0, 'R')
    && !(At(s, 0, 'N') && At(s, 1, 'D')) && !(At(s, 0, 'O') && At(s, 1, 'R'))
    && !(At(s, 0, 'A') && At(s, 1, 'N') && At(s, 2, 'D'))
  }

  lemma WordSettles(text: string, rest: string)
    requires Plain(text) && Settled(rest)
    ensures Settled(text + rest)
  {
    if |text| >= 2 { PlainAt(text, 0, 1); }
    if |text| >= 3 { PlainAt(text, 0, 2); }
  }

  /** No connective begins inside a word. */
  lemma NoneBegins(text: string, i: nat, rest: string)
    requires Plain(text) && i < |text| && Settled(rest)
    ensures !(" AND " <= text[i..] + rest) && !(" OR " <= text[i..] + rest)
  {
    var s := text[i..] + rest;
    var n := |text| - i;
    if n >= 4 { PlainAt(text, 0, i + 3); }
    if n >= 3 { PlainAt(text, 0, i + 2); }
    assert s[n..] == rest;
  }

  lemma ScanLetter(s: string)
    requires s != "" && !Special(s[0]) && !(" AND " <= s) && !(" OR " <= s)
    ensures Scan(s) == [Lexeme([s[0]])] + Scan(s[1..])
  {}

  lemma {:induction false} ScanWord(text: string, i: nat, rest: string)
    requires Plain(text) && i <= |text| && Settled(rest)
    ensures Scan(text[i..] + rest) == Letters(text[i..]) + Scan(rest)
    decreases |text| - i
  {
    hide Scan, Settled, PlainFrom;
    var s := text[i..] + rest;
    if i == |text| {
      assert s == rest;
      assert Letters(text[i..]) + Scan(rest) == Scan(rest);
    } else {
      NoneBegins(text, i, rest);
      PlainAt(text, 0, i);
      ScanLetter(s);
      ScanWord(text, i + 1, rest);
      assert s[0] == text[i] && s[1..] == text[i + 1..] + rest;
      assert Letters(text[i..]) == [Lexeme([text[i]])] + Letters(text[i + 1..]);
    }
  }

  lemma {:induction false} QuoteEnds(literal: string, rest: string)
    requires '\'' !in literal
    ensures QuoteEnd(literal + "'" + rest) == |literal|
  {
    var s := literal + "'" + rest;
    if literal == "" {
      assert s[0] == '\'';
    } else {
      assert s[0] == literal[0] && s[1..] == literal[1..] + "'" + rest;
      QuoteEnds(literal[1..], rest);
    }
  }

  lemma ScanLiteral(literal: string, rest: string)
    requires '\'' !in literal
    ensures Scan("'" + literal + "'" + rest) == [Literal(literal)] + Scan(rest)
  {
    var s := "'" + literal + "'" + rest;
    QuoteEnds(literal, rest);
    assert s[0] == '\'' && s[1..] == literal + "'" + rest;
    assert s[1..|literal| + 1] == literal && s[|literal| + 2..] == rest;
  }

  lemma ScanSign(t: Token, rest: string)
    requires !t.Lexeme? && !t.Literal?
    ensures Scan(PrintToken(t) + rest) == Fine(t) + Scan(rest) && Settled(PrintToken(t) + rest)
  {
    var s := PrintToken(t) + rest;
    assert s[0] == PrintToken(t)[0] && s[|PrintToken(t)|..] == rest;
    if t.Or? { assert s[1] == 'O'; }
  }

  lemma ScanStep(t: Token, rest: string)
    requires (t.Lexeme? ==> Plain(t.text)) && (t.Literal? ==> '\'' !in t.literal) && Settled(rest)
    ensures Scan(PrintToken(t) + rest) == Fine(t) + Scan(rest) && Settled(PrintToken(t) + rest)
  {
    hide Scan, Plain, Settled;
    if t.Lexeme? {
      ScanWord(t.text, 0, rest);
      assert t.text[0..] == t.text;
      WordSettles(t.text, rest);
    } else if t.Literal? {
      ScanLiteral(t.literal, rest);
      QuoteSettles(t.literal + "'" + rest);
      assert PrintToken(t) + rest == "'" + (t.literal + "'" + rest) == "'" + t.literal + "'" + rest;
    } else {
      ScanSign(t, rest);
    }
  }

  /** Scanning the printed characters finds the tokens again. */
  lemma {:induction false} ScanFindsTokens(ts: seq<Token>)
    requires Spelled(ts)
    ensures Scan(Print(ts)) == FineAll(ts) && Settled(Print(ts))
  {
    hide Plain, PrintToken, Fine;
    if ts == [] {
      hide Settled;
      EmptySettles();
    } else {
      hide Scan, Settled;
      assert ts[0] in ts && forall u | u in ts[1..] :: u in ts;
      ScanFindsTokens(ts[1..]);
      ScanStep(ts[0], Print(ts[1..]));
    }
  }

  lemma EmptySettles()
    ensures Settled("")
  {}

  lemma QuoteSettles(rest: string)
    ensures Settled("'" + rest)
  {
    assert ("'" + rest)[0] == '\'';
  }

  // ---------------------------------------------------------------- reading what was scanned

  lemma FineFirst(t: Token, rest: seq<Token>)
    ensures FineAll([t] + rest) == Fine(t) + FineAll(rest)
  {
    hide Fine;
    assert ([t] + rest)[1..] == rest;
  }

  lemma FineNone()
    ensures FineAll([]) == []
  {}

  lemma {:induction false} FineAppends(a: seq<Token>, b: seq<Token>)
    ensures FineAll(a + b) == FineAll(a) + FineAll(b)
  {
    hide FineAll, Fine;
    FineNone();
    if a == [] {
      assert a + b == b;
    } else {
      var t, later := a[0], a[1..];
      FineAppends(later, b);
      FineFirst(t, later);
      FineFirst(t, later + b);
      assert a == [t] + later && a + b == [t] + (later + b);
    }
  }

  lemma FineOne(t: Token)
    ensures FineAll([t]) == Fine(t)
  {
    FineFirst(t, []);
    assert [t] + [] == [t];
    assert Fine(t) + [] == Fine(t);
  }

  lemma {:induction false} LevelLetters(text: string, rest: seq<Token>, d: nat)
    ensures Level(Letters(text) + rest, d) == Level(rest, d)
  {
    if text == "" {
      assert Letters(text) + rest == rest;
    } else {
      LevelLetters(text[1..], rest, d);
      LevelOne(Lexeme([text[0]]), Letters(text[1..]) + rest, d);
      assert Letters(text) + rest == [Lexeme([text[0]])] + (Letters(text[1..]) + rest);
    }
  }

  lemma LevelFirst(t: Token, rest: seq<Token>, d: nat)
    ensures Level([t] + rest, d)
         == if t.Open? then Level(rest, d + 1)
            else if t.Close? then (if d == 0 then None else Level(rest, d - 1))
            else Level(rest, d)
  {
    assert ([t] + rest)[1..] == rest;
  }

  lemma {:induction false} FineLevel(ts: seq<Token>, d: nat)
    ensures Level(FineAll(ts), d) == Level(ts, d)
  {
    hide Level, FineAll;
    FineNone();
    if ts != [] {
      var t, later := ts[0], ts[1..];
      assert ts == [t] + later;
      FineFirst(t, later);
      LevelFirst(t, later, d);
      if t.Lexeme? {
        LevelLetters(t.text, FineAll(later), d);
        FineLevel(later, d);
      } else {
        LevelFirst(Fine(t)[0], FineAll(later), d);
        if t.Open? { FineLevel(later, d + 1); }
        else if t.Close? { if d > 0 { FineLevel(later, d - 1); } }
        else { FineLevel(later, d); }
      }
    }
  }

  function FineParts(parts: seq<seq<Token>>): seq<seq<Token>> {
    seq(|parts|, i requires 0 <= i < |parts| => FineAll(parts[i]))
  }

  lemma FineGlue(x: seq<Token>, parts: seq<seq<Token>>)
    requires parts != []
    ensures FineParts(Glue(x, parts)) == Glue(FineAll(x), FineParts(parts))
  {
    FineAppends(x, parts[0]);
    hide FineAll;
    var glued := Glue(x, parts);
    assert forall i | 1 <= i < |glued| :: glued[i] == glued[1..][i - 1] == parts[1..][i - 1] == parts[i];
  }

  lemma FineCut(parts: seq<seq<Token>>)
    ensures FineParts([[]] + parts) == [[]] + FineParts(parts)
  {
    FineNone();
    hide FineAll;
  }

  lemma {:induction false} SplitLetters(text: string, rest: seq<Token>, any: bool, d: nat)
    ensures Split(Letters(text) + rest, Separator(any), d) == Glue(Letters(text), Split(rest, Separator(any), d))
  {
    hide Split, Glue;
    if text == "" {
      assert Letters(text) == [] && [] + rest == rest;
      GlueNothing(Split(rest, Separator(any), d));
    } else {
      var first := Lexeme([text[0]]);
      SplitLetters(text[1..], rest, any, d);
      SplitOne(first, Letters(text[1..]) + rest, any, d);
      GlueGlue([first], Letters(text[1..]), Split(rest, Separator(any), d));
      assert Letters(text) == [first] + Letters(text[1..]);
      assert Letters(text) + rest == [first] + (Letters(text[1..]) + rest);
    }
  }

  /** How deep the text after t is. */
  function After(t: Token, d: nat): nat { if t.Open? then d + 1 else if t.Close? && d > 0 then d - 1 else d }

  lemma SplitFirst(t: Token, rest: seq<Token>, any: bool, d: nat)
    requires !(t == Separator(any) && d == 0)
    ensures Split([t] + rest, Separator(any), d) == Glue([t], Split(rest, Separator(any), After(t, d)))
  {
    assert ([t] + rest)[1..] == rest;
  }

  lemma SplitNone(sep: Token, d: nat)
    ensures Split([], sep, d) == [[]] && FineParts([[]]) == [[]]
  {}

  /** One token further: the scanned letters of t split as t does. */
  lemma FineSplitStep(t: Token, later: seq<Token>, any: bool, d: nat)
    requires !(t == Separator(any) && d == 0)
    requires Split(FineAll(later), Separator(any), After(t, d)) == FineParts(Split(later, Separator(any), After(t, d)))
    ensures Split(Fine(t) + FineAll(later), Separator(any), d) == FineParts(Split([t] + later, Separator(any), d))
  {
    hide Split, Glue, FineParts, FineAll;
    var sep := Separator(any);
    SplitFirst(t, later, any, d);
    FineGlue([t], Split(later, sep, After(t, d)));
    FineOne(t);
    if t.Lexeme? {
      SplitLetters(t.text, FineAll(later), any, d);
    } else {
      SplitFirst(Fine(t)[0], FineAll(later), any, d);
    }
  }

  lemma {:induction false} FineSplit(ts: seq<Token>, any: bool, d: nat)
    ensures Split(FineAll(ts), Separator(any), d) == FineParts(Split(ts, Separator(any), d))
  {
    hide Split, FineParts, FineAll, Fine;
    var sep := Separator(any);
    FineNone();
    SplitNone(sep, d);
    if ts != [] {
      var t, later := ts[0], ts[1..];
      assert ts == [t] + later;
      FineFirst(t, later);
      if t == sep && d == 0 {
        FineSplit(later, any, 0);
        SplitHere(later, any);
        SplitHere(FineAll(later), any);
        FineCut(Split(later, sep, 0));
        SeparatorIsFine(any);
      } else {
        FineSplit(later, any, After(t, d));
        FineSplitStep(t, later, any, d);
      }
    }
  }

  lemma SeparatorIsFine(any: bool)
    ensures Fine(Separator(any)) == [Separator(any)]
  {}

  lemma FineEnds(t: Token)
    requires t.Lexeme? ==> t.text != ""
    ensures Fine(t) != [] && (Fine(t)[0].Open? <==> t.Open?) && (Fine(t)[|Fine(t)| - 1].Close? <==> t.Close?)
  {}

  lemma FineFront(t: Token, later: seq<Token>)
    requires t.Lexeme? ==> t.text != ""
    ensures FineAll([t] + later) != [] && (FineAll([t] + later)[0].Open? <==> t.Open?)
  {
    hide FineAll, Fine;
    FineEnds(t);
    FineFirst(t, later);
    assert FineAll([t] + later)[0] == Fine(t)[0];
  }

  lemma FineBack(init: seq<Token>, t: Token)
    requires t.Lexeme? ==> t.text != ""
    ensures var fine := FineAll(init + [t]); fine != [] && (fine[|fine| - 1].Close? <==> t.Close?)
  {
    hide FineAll, Fine;
    FineEnds(t);
    FineAppends(init, [t]);
    FineOne(t);
    var fine := FineAll(init + [t]);
    assert fine == FineAll(init) + Fine(t);
    assert fine[|fine| - 1] == Fine(t)[|Fine(t)| - 1];
  }

  lemma FineStarts(ts: seq<Token>)
    requires Spelled(ts) && ts != []
    ensures FineAll(ts) != [] && (FineAll(ts)[0].Open? <==> ts[0].Open?)
    ensures FineAll(ts)[|FineAll(ts)| - 1].Close? <==> ts[|ts| - 1].Close?
  {
    var n := |ts| - 1;
    assert ts[0] in ts && ts[n] in ts;
    hide FineAll, PlainFrom;
    FineFront(ts[0], ts[1..]);
    assert [ts[0]] + ts[1..] == ts;
    FineBack(ts[..n], ts[n]);
    assert ts[..n] + [ts[n]] == ts;
  }

  lemma FineParen(inner: seq<Token>)
    ensures FineAll([Open] + inner + [Close]) == [Open] + FineAll(inner) + [Close]
  {
    hide FineAll;
    FineAppends([Open], inner);
    FineAppends([Open] + inner, [Close]);
    FineOne(Open);
    FineOne(Close);
  }

  lemma FineWrapped(ts: seq<Token>)
    requires Spelled(ts)
    ensures Wrapped(FineAll(ts)) <==> Wrapped(ts)
    ensures Wrapped(ts) ==> FineAll(ts)[1..|FineAll(ts)| - 1] == FineAll(ts[1..|ts| - 1])
  {
    hide FineAll, Spelled, Level;
    FineNone();
    if ts != [] {
      FineStarts(ts);
      var n := |ts| - 1;
      if n == 0 {
        FineOne(ts[0]);
        assert ts == [ts[0]];
      } else if ts[0].Open? && ts[n].Close? {
        var inner := ts[1..n];
        assert ts == [Open] + inner + [Close];
        FineParen(inner);
        FineLevel(inner, 0);
        assert FineAll(ts)[1..|FineAll(ts)| - 1] == FineAll(inner);
      }
    }
  }

  /** A tree with its leaves as they are scanned. */
  function FineTree(t: Tree): Tree {
    match t
    case Leaf(ts) => Leaf(FineAll(ts))
    case AllTrees(trees) => AllTrees(seq(|trees|, i requires 0 <= i < |trees| => FineTree(trees[i])))
    case AnyTrees(trees) => AnyTrees(seq(|trees|, i requires 0 <= i < |trees| => FineTree(trees[i])))
  }

  lemma {:induction false} SplitWithin(ts: seq<Token>, sep: Token, d: nat)
    ensures forall p, t | p in Split(ts, sep, d) && t in p :: t in ts
  {
    if ts != [] {
      if ts[0] == sep && d == 0 {
        SplitWithin(ts[1..], sep, 0);
      } else {
        var rest := Split(ts[1..], sep, After(ts[0], d));
        SplitWithin(ts[1..], sep, After(ts[0], d));
        GlueWithin(ts[0], rest, ts);
      }
    }
  }

  lemma GlueWithin(x: Token, parts: seq<seq<Token>>, ts: seq<Token>)
    requires parts != [] && x in ts && forall p, t | p in parts && t in p :: t in ts
    ensures forall p, t | p in Glue([x], parts) && t in p :: t in ts
  {
    var glued := Glue([x], parts);
    assert glued == [[x] + parts[0]] + parts[1..];
    forall p, t | p in glued && t in p ensures t in ts {
      if p == [x] + parts[0] { assert t == x || t in parts[0]; } else { assert p in parts; }
    }
  }

  /** How Read goes on. */
  lemma ReadSplits(ts: seq<Token>)
    ensures var ors, ands := Split(ts, Or, 0), Split(ts, And, 0);
      Read(ts) ==
        if |ors| > 1 then AnyTrees(ReadParts(ors))
        else if |ands| > 1 then AllTrees(ReadParts(ands))
        else if Wrapped(ts) then Read(ts[1..|ts| - 1])
        else Leaf(ts)
  {
    hide Split, Wrapped;
  }

  function ReadParts(parts: seq<seq<Token>>): seq<Tree> {
    seq(|parts|, i requires 0 <= i < |parts| => Read(parts[i]))
  }

  /** Reading the scanned characters gives the tree read from the tokens, leaf by leaf. */
  lemma {:induction false} FineRead(ts: seq<Token>)
    requires Spelled(ts)
    ensures Read(FineAll(ts)) == FineTree(Read(ts))
    decreases |ts|, 1
  {
    FineSplit(ts, true, 0);
    FineSplit(ts, false, 0);
    FineWrapped(ts);
    ReadSplits(ts);
    ReadSplits(FineAll(ts));
    var ors, ands := Split(ts, Or, 0), Split(ts, And, 0);
    SplitWithin(ts, Or, 0);
    SplitWithin(ts, And, 0);
    hide Split, FineAll, Spelled, Wrapped, Read, ReadParts;
    if |ors| > 1 {
      PartsRead(ts, ors);
    } else if |ands| > 1 {
      PartsRead(ts, ands);
    } else if Wrapped(ts) {
      WrappedIsLong(ts);
      InnerIsSpelled(ts);
      FineRead(ts[1..|ts| - 1]);
    }
  }

  lemma WrappedIsLong(ts: seq<Token>)
    requires Wrapped(ts)
    ensures |ts| >= 2
  {}

  lemma InnerIsSpelled(ts: seq<Token>)
    requires Spelled(ts) && |ts| >= 2
    ensures Spelled(ts[1..|ts| - 1])
  {}

  lemma {:induction false} PartsRead(ts: seq<Token>, parts: seq<seq<Token>>)
    requires Spelled(ts) && forall p, t | p in parts && t in p :: t in ts
    requires forall p | p in parts :: |p| < |ts|
    ensures FineTree(AnyTrees(ReadParts(parts))) == AnyTrees(ReadParts(FineParts(parts)))
    ensures FineTree(AllTrees(ReadParts(parts))) == AllTrees(ReadParts(FineParts(parts)))
    decreases |ts|, 0
  {
    hide Read, FineAll;
    forall i | 0 <= i < |parts| ensures Read(FineAll(parts[i])) == FineTree(Read(parts[i])) {
      assert parts[i] in parts;
      FineRead(parts[i]);
    }
    assert ReadParts(FineParts(parts)) == seq(|parts|, i requires 0 <= i < |parts| => FineTree(Read(parts[i])));
    FineTrees(ReadParts(parts), ReadParts(FineParts(parts)));
  }

  lemma FineTrees(trees: seq<Tree>, fine: seq<Tree>)
    requires |trees| == |fine| && forall i | 0 <= i < |trees| :: fine[i] == FineTree(trees[i])
    ensures FineTree(AnyTrees(trees)) == AnyTrees(fine) && FineTree(AllTrees(trees)) == AllTrees(fine)
  {
    assert fine == seq(|trees|, i requires 0 <= i < |trees| => FineTree(trees[i]));
  }

  /**
   The printed WHERE text of a compiled segment, scanned and read character by character, is the segment's tree: no
   word, quoted value or placeholder hides or adds a connective or a parenthesis.
   */
  lemma {:induction false} PrintedTextReadsAsWritten(at: Scope, dsl: Segment)
    requires SegmentSql(at, dsl).Some?
    ensures Supported(at, dsl)
    ensures Read(Scan(Print(Tokens(SegmentSql(at, dsl).value)))) == FineTree(SegmentTree(at, dsl))
  {
    SegmentReadsAsWritten(at, dsl);
    var ts := Tokens(SegmentSql(at, dsl).value);
    TokensAreSpelled(SegmentSql(at, dsl).value);
    ScanFindsTokens(ts);
    FineRead(ts);
  }
}
