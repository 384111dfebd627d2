/** From positional to named parameters, on the printed characters. */
module ClickHouseQuery {
  import opened Wrappers
  import opened Decimals
  import opened SegmentDsl
  import opened SegmentReading

  datatype Query = Query(query: string, params: map<string, Value>)

  predicate IsInteger(x: real) { x == x.Floor as real }

  function TypeOf(v: Value): string {
    if v.Num? then if IsInteger(v.n) then "Int64" else "Float64" else "String"
  }

  function Name(i: nat): string { "p" + Decimal(i) }

  function Placeholder(i: nat, v: Value): string { "{" + Name(i) + ":" + TypeOf(v) + "}" }

  /** A missing argument reads as undefined. */
  function Arg(args: seq<Value>, i: nat): Value { if i < |args| then args[i] else Other }

  function Marks(s: string): nat {
    if s == [] then 0 else (if s[0] == '?' then 1 else 0) + Marks(s[1..])
  }

  /** Each question mark becomes the placeholder of the next argument, starting at the i-th. */
  function Rewrite(s: string, args: seq<Value>, i: nat): string {
    if s == [] then []
    else if s[0] == '?' then Placeholder(i, Arg(args, i)) + Rewrite(s[1..], args, i + 1)
    else [s[0]] + Rewrite(s[1..], args, i)
  }

  lemma NamesDiffer(i: nat, j: nat)
    ensures Name(i) == Name(j) ==> i == j
  {
    DecimalInjective(i, j);
    assert Name(i)[1..] == Decimal(i) && Name(j)[1..] == Decimal(j);
  }

  /** The rewriting fails exactly when the numbers of marks and arguments differ. */
  method ToClickHouse(sql: string, args: seq<Value>) returns (result: Option<Query>)
    ensures result.Some? <==> Marks(sql) == |args|
    ensures result.Some? ==> result.value.query == Rewrite(sql, args, 0)
    ensures result.Some? ==> forall k | 0 <= k < |args| ::
      Name(k) in result.value.params
      && result.value.params[Name(k)] == args[k]
    ensures result.Some? ==> forall name | name in result.value.params :: exists k | 0 <= k < |args| :: name == Name(k)
  {
    hide Rewrite, Marks, Name, Placeholder, Arg;
    var query, params, i := "", map[], 0;
    assert sql[0..] == sql;
    assert "" + Rewrite(sql, args, 0) == Rewrite(sql, args, 0);
    for c := 0 to |sql|
      invariant query + Rewrite(sql[c..], args, i) == Rewrite(sql, args, 0)
      invariant i + Marks(sql[c..]) == Marks(sql)
      invariant Named(params, args, i)
    {
      OneCharacter(sql[c..], args, i, query);
      assert sql[c..][1..] == sql[c + 1..];
      if sql[c] == '?' {
        var value := Arg(args, i);
        NameOneMore(params, args, i);
        params := params[Name(i) := value];
        query := query + Placeholder(i, value);
        i := i + 1;
      } else {
        query := query + [sql[c]];
      }
    }
    NoCharacters(args, i);
    assert sql[|sql|..] == [] && query + [] == query;
    if i != |args| { return None; }
    AllNamed(params, args);
    result := Some(Query(query, params));
  }

  /** The parameters are the first i arguments under their names. */
  ghost predicate Named(params: map<string, Value>, args: seq<Value>, i: nat) {
    && (forall k | 0 <= k < i :: Name(k) in params && params[Name(k)] == Arg(args, k))
    && (forall name | name in params :: exists k | 0 <= k < i :: name == Name(k))
  }

  lemma NameOneMore(params: map<string, Value>, args: seq<Value>, i: nat)
    requires Named(params, args, i)
    ensures Named(params[Name(i) := Arg(args, i)], args, i + 1)
  {
    forall k | 0 <= k < i ensures Name(k) != Name(i) { NamesDiffer(k, i); }
    hide Name;
  }

  lemma AllNamed(params: map<string, Value>, args: seq<Value>)
    requires Named(params, args, |args|)
    ensures forall k | 0 <= k < |args| :: Name(k) in params && params[Name(k)] == args[k]
    ensures forall name | name in params :: exists k | 0 <= k < |args| :: name == Name(k)
  {
    hide Name;
    forall k | 0 <= k < |args| ensures Arg(args, k) == args[k] {}
  }

  lemma OneCharacter(s: string, args: seq<Value>, i: nat, query: string)
    requires s != []
    ensures s[0] == '?' ==>
      Marks(s) == 1 + Marks(s[1..])
      && query + Rewrite(s, args, i) == query + Placeholder(i, Arg(args, i)) + Rewrite(s[1..], args, i + 1)
    ensures s[0] != '?' ==>
      Marks(s) == Marks(s[1..])
      && query + Rewrite(s, args, i) == query + [s[0]] + Rewrite(s[1..], args, i)
  {
    hide Placeholder, Arg;
    var rest := Rewrite(s[1..], args, i + 1);
    assert query + (Placeholder(i, Arg(args, i)) + rest) == query + Placeholder(i, Arg(args, i)) + rest;
    var same := Rewrite(s[1..], args, i);
    assert query + ([s[0]] + same) == query + [s[0]] + same;
  }

  lemma NoCharacters(args: seq<Value>, i: nat)
    ensures Rewrite([], args, i) == [] && Marks([]) == 0
  {}

  // ---------------------------------------------------------------- printing

  /** The bound text with the placeholder of each value, numbered from i, in its place. */
  function PrintNamed(ts: seq<Token>, i: nat): string {
    if ts == [] then ""
    else if ts[0].Mark? && ts[0].value.Some? then Placeholder(i, ts[0].value.value) + PrintNamed(ts[1..], i + 1)
    else PrintToken(ts[0]) + PrintNamed(ts[1..], i)
  }

  const MIRROR: Words := "profiles"
  const FINAL: Words := "_mirror FINAL"

  function SelectionText(): Words { Both(SELECT, Both(USER_ID, Both(FROM, Both(MIRROR, Both(FINAL, WHERE))))) }

  function SqlText(where: seq<Token>): string { SelectionText() + Print(where) }

  lemma {:induction false} RewritePlain(text: string, rest: string, args: seq<Value>, i: nat)
    requires '?' !in text
    ensures Rewrite(text + rest, args, i) == text + Rewrite(rest, args, i)
    ensures Marks(text + rest) == Marks(rest)
  {
    if text == [] {
      assert [] + rest == rest;
    } else {
      var more := text[1..];
      assert text + rest == [text[0]] + (more + rest);
      assert (text + rest)[1..] == more + rest;
      RewritePlain(more, rest, args, i);
      assert text == [text[0]] + more;
      assert [text[0]] + (more + Rewrite(rest, args, i)) == text + Rewrite(rest, args, i);
    }
  }

  lemma WordsHaveNoMark(text: Words)
    ensures '?' !in text
  {
    forall j | 0 <= j < |text| ensures text[j] != '?' { PlainAt(text, 0, j); }
  }

  /** Only placeholders print a question mark. */
  predicate MarksApart(ts: seq<Token>) {
    forall t | t in ts && !t.Mark? :: '?' !in PrintToken(t)
  }

  lemma {:induction false} TokensKeepMarksApart(sql: Sql)
    ensures MarksApart(Tokens(sql))
  {
    match sql {
      case Word(text) => WordsHaveNoMark(text);
      case Paren(inner) => TokensKeepMarksApart(inner);
      case Cat(first, second) =>
        TokensKeepMarksApart(first);
        TokensKeepMarksApart(second);
      case _ =>
    }
  }

  lemma MarkFirst(rest: string, args: seq<Value>, i: nat)
    ensures Rewrite("?" + rest, args, i) == Placeholder(i, Arg(args, i)) + Rewrite(rest, args, i + 1)
    ensures Marks("?" + rest) == 1 + Marks(rest)
  {
    assert ("?" + rest)[1..] == rest;
  }

  /** Rewriting erased text with the values of the bound text names each value where it was bound. */
  lemma {:induction false} RewriteNames(ts: seq<Token>, before: seq<Value>)
    requires FullyBound(ts) && MarksApart(ts)
    ensures Rewrite(Print(EraseTokens(ts)), before + Values(ts), |before|) == PrintNamed(ts, |before|)
    ensures Marks(Print(EraseTokens(ts))) == |Values(ts)|
  {
    hide Rewrite, Marks, PrintToken;
    if ts == [] {
      NothingToRewrite(before);
      assert before + Values(ts) == before;
    } else {
      var t, rest := ts[0], ts[1..];
      assert t in ts && forall u | u in rest :: u in ts;
      var erased := EraseTokens(rest);
      assert EraseTokens(ts) == [if t.Mark? then Mark(None) else t] + erased;
      assert EraseTokens(ts)[1..] == erased;
      if t.Mark? {
        var v := t.value.value;
        assert Values(ts) == [v] + Values(rest);
        assert before + Values(ts) == (before + [v]) + Values(rest);
        RewriteNames(rest, before + [v]);
        MarkFirst(Print(erased), before + Values(ts), |before|);
        PrintsMark();
      } else {
        assert Values(ts) == Values(rest);
        RewriteNames(rest, before);
        RewritePlain(PrintToken(t), Print(erased), before + Values(ts), |before|);
      }
    }
  }

  lemma PrintsMark()
    ensures PrintToken(Mark(None)) == "?"
  {}

  lemma NothingToRewrite(args: seq<Value>)
    ensures Rewrite("", args, |args|) == "" && Marks("") == 0
    ensures Print([]) == "" && EraseTokens([]) == []
  {}

  /**
   The rewriting never fails on compiled segments: the final query is the bound text with each value replaced
   by the name and type of the parameter that carries it.
   */
  lemma CompiledQueriesRewrite(at: Scope, dsl: Segment)
    requires SegmentSql(at, dsl).Some?
    ensures var bound := SegmentSql(at, dsl).value;
      && Marks(SqlText(Tokens(Erase(bound)))) == |Push([], bound)|
      && Rewrite(SqlText(Tokens(Erase(bound))), Push([], bound), 0) == SelectionText() + PrintNamed(Tokens(bound), 0)
  {
    hide SegmentSql, SelectionText, Rewrite, Marks;
    var bound := SegmentSql(at, dsl).value;
    SegmentReadsAsWritten(at, dsl);
    FullIsBound(bound);
    TokensErase(bound);
    PushIsValues([], bound);
    WordsHaveNoMark(SelectionText());
    TokensKeepMarksApart(bound);
    RewriteNames(Tokens(bound), []);
    RewritePlain(SelectionText(), Print(Tokens(Erase(bound))), Push([], bound), 0);
  }
}
