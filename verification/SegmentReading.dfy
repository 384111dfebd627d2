/** Reading the compiled text back: its Boolean structure is that of the segment. */
module SegmentReading {
  import opened Wrappers
  import opened SegmentDsl

  // ---------------------------------------------------------------- a reader that knows nothing of the compiler

  /** AND binds tighter than OR; parentheses group; everything else is a leaf. */
  datatype Tree = Leaf(ts: seq<Token>) | AllTrees(trees: seq<Tree>) | AnyTrees(trees: seq<Tree>)

  /** The pieces between the separators outside all parentheses, d of them being open at the start. */
  function Split(ts: seq<Token>, sep: Token, d: nat): (parts: seq<seq<Token>>)
    ensures |parts| > 0
    ensures |parts| > 1 ==> forall p | p in parts :: |p| < |ts|
    ensures |parts| == 1 ==> |parts[0]| <= |ts|
  {
    if ts == [] then [[]]
    else if ts[0] == sep && d == 0 then
      var rest := Split(ts[1..], sep, 0);
      [[]] + rest
    else
      var rest := Split(ts[1..], sep, if ts[0].Open? then d + 1 else if ts[0].Close? && d > 0 then d - 1 else d);
      Glue([ts[0]], rest)
  }

  function Glue(x: seq<Token>, parts: seq<seq<Token>>): (r: seq<seq<Token>>)
    requires parts != []
    ensures |r| == |parts| && r[0] == x + parts[0] && r[1..] == parts[1..]
  {
    [x + parts[0]] + parts[1..]
  }

  /** How many parentheses are open after the text; None when it closes one that is not open. */
  function Level(ts: seq<Token>, d: nat): Option<nat> {
    if ts == [] then Some(d)
    else if ts[0].Open? then Level(ts[1..], d + 1)
    else if ts[0].Close? then if d == 0 then None else Level(ts[1..], d - 1)
    else Level(ts[1..], d)
  }

  /** One pair of parentheses around everything. */
  predicate Wrapped(ts: seq<Token>) {
    |ts| >= 2 && ts[0].Open? && ts[|ts| - 1].Close? && Level(ts[1..|ts| - 1], 0) == Some(0)
  }

  function Read(ts: seq<Token>): Tree
    decreases |ts|
  {
    var ors := Split(ts, Or, 0);
    if |ors| > 1 then AnyTrees(seq(|ors|, i requires 0 <= i < |ors| => Read(ors[i])))
    else
      var ands := Split(ts, And, 0);
      if |ands| > 1 then AllTrees(seq(|ands|, i requires 0 <= i < |ands| => Read(ands[i])))
      else if Wrapped(ts) then Read(ts[1..|ts| - 1])
      else Leaf(ts)
  }

  /** The truth of a tree under a truth assignment of its leaves. */
  ghost predicate Truth(t: Tree, atom: seq<Token> -> bool) {
    match t
    case Leaf(ts) => atom(ts)
    case AllTrees(trees) => forall i | 0 <= i < |trees| :: Truth(trees[i], atom)
    case AnyTrees(trees) => exists i | 0 <= i < |trees| :: Truth(trees[i], atom)
  }

  // ---------------------------------------------------------------- reading what was put together

  function Separator(any: bool): Token { if any then Or else And }

  /** A connective of this kind stands outside all parentheses. */
  predicate Exposes(sql: Sql, any: bool) {
    match sql
    case Connective(a) => a == any
    case Cat(first, second) => Exposes(first, any) || Exposes(second, any)
    case _ => false
  }

  predicate Shut(sql: Sql) { !Exposes(sql, true) && !Exposes(sql, false) }

  lemma {:induction false} LevelThrough(sql: Sql, rest: seq<Token>, d: nat)
    ensures Level(Tokens(sql) + rest, d) == Level(rest, d)
    decreases sql
  {
    hide Level;
    match sql {
      case Empty => assert [] + rest == rest;
      case Paren(inner) =>
        LevelParen(inner, rest, d);
        LevelThrough(inner, [Close] + rest, d + 1);
      case Cat(first, second) =>
        LevelThrough(first, Tokens(second) + rest, d);
        LevelThrough(second, rest, d);
        assert Tokens(sql) + rest == Tokens(first) + (Tokens(second) + rest);
      case _ =>
        LevelOne(Tokens(sql)[0], rest, d);
        assert Tokens(sql) == [Tokens(sql)[0]];
    }
  }

  lemma LevelOne(t: Token, rest: seq<Token>, d: nat)
    requires !t.Open? && !t.Close?
    ensures Level([t] + rest, d) == Level(rest, d)
  {
    assert ([t] + rest)[1..] == rest;
  }

  lemma LevelParen(inner: Sql, rest: seq<Token>, d: nat)
    ensures Level(Tokens(Paren(inner)) + rest, d) == Level(Tokens(inner) + ([Close] + rest), d + 1)
    ensures Level([Close] + rest, d + 1) == Level(rest, d)
  {
    ParenTokens(inner);
    hide Tokens;
    var after := [Close] + rest;
    var all := Tokens(Paren(inner)) + rest;
    assert all == [Open] + (Tokens(inner) + after);
    assert all[0] == Open && all[1..] == Tokens(inner) + after;
    assert after[0] == Close && after[1..] == rest;
  }

  lemma GlueGlue(x: seq<Token>, y: seq<Token>, parts: seq<seq<Token>>)
    requires parts != []
    ensures Glue(x, Glue(y, parts)) == Glue(x + y, parts)
  {
    assert x + (y + parts[0]) == (x + y) + parts[0];
  }

  lemma GlueNothing(parts: seq<seq<Token>>)
    requires parts != []
    ensures Glue([], parts) == parts
  {
    assert [] + parts[0] == parts[0];
  }

  /** Splitting passes through a text that exposes no such separator, or lies inside parentheses. */
  lemma {:induction false} SplitThrough(sql: Sql, rest: seq<Token>, any: bool, d: nat)
    requires d > 0 || !Exposes(sql, any)
    ensures Split(Tokens(sql) + rest, Separator(any), d) == Glue(Tokens(sql), Split(rest, Separator(any), d))
    decreases sql
  {
    var sep := Separator(any);
    hide Glue, Split;
    match sql {
      case Empty =>
        assert [] + rest == rest;
        GlueNothing(Split(rest, sep, d));
      case Paren(inner) =>
        SplitThrough(inner, [Close] + rest, any, d + 1);
        SplitAround(inner, rest, any, d);
      case Cat(first, second) =>
        SplitThrough(first, Tokens(second) + rest, any, d);
        SplitThrough(second, rest, any, d);
        SplitAcross(Tokens(first), Tokens(second), rest, sep, d);
      case _ =>
        SplitOne(Tokens(sql)[0], rest, any, d);
        assert Tokens(sql) == [Tokens(sql)[0]];
    }
  }

  lemma {:induction false} SplitParen(inner: Sql, rest: seq<Token>, any: bool, d: nat)
    ensures Split(Tokens(Paren(inner)) + rest, Separator(any), d) ==
      Glue([Open], Split(Tokens(inner) + ([Close] + rest), Separator(any), d + 1))
    ensures Split([Close] + rest, Separator(any), d + 1) == Glue([Close], Split(rest, Separator(any), d))
  {
    hide Glue, Tokens;
    var after := [Close] + rest;
    assert Tokens(Paren(inner)) == [Open] + Tokens(inner) + [Close] by { ParenTokens(inner); }
    var all := Tokens(Paren(inner)) + rest;
    assert all == [Open] + (Tokens(inner) + after);
    assert all[0] == Open && all[1..] == Tokens(inner) + after;
    assert after[0] == Close && after[1..] == rest;
  }

  lemma {:induction false} SplitAcross(a: seq<Token>, b: seq<Token>, rest: seq<Token>, sep: Token, d: nat)
    requires Split(a + (b + rest), sep, d) == Glue(a, Split(b + rest, sep, d))
    requires Split(b + rest, sep, d) == Glue(b, Split(rest, sep, d))
    ensures Split(a + b + rest, sep, d) == Glue(a + b, Split(rest, sep, d))
  {
    hide Glue, Split;
    GlueGlue(a, b, Split(rest, sep, d));
    assert a + b + rest == a + (b + rest);
  }

  lemma {:induction false} SplitAround(inner: Sql, rest: seq<Token>, any: bool, d: nat)
    requires Split(Tokens(inner) + ([Close] + rest), Separator(any), d + 1)
      == Glue(Tokens(inner), Split([Close] + rest, Separator(any), d + 1))
    ensures Split(Tokens(Paren(inner)) + rest, Separator(any), d)
      == Glue(Tokens(Paren(inner)), Split(rest, Separator(any), d))
  {
    hide Glue, Split, Tokens;
    SplitParen(inner, rest, any, d);
    ParenTokens(inner);
    GlueGlue(Tokens(inner), [Close], Split(rest, Separator(any), d));
    GlueGlue([Open], Tokens(inner) + [Close], Split(rest, Separator(any), d));
    assert [Open] + (Tokens(inner) + [Close]) == Tokens(Paren(inner));
  }

  lemma ParenTokens(inner: Sql)
    ensures Tokens(Paren(inner)) == [Open] + Tokens(inner) + [Close]
  {}

  lemma SplitOne(t: Token, rest: seq<Token>, any: bool, d: nat)
    requires !t.Open? && !t.Close? && (d > 0 || t != Separator(any))
    ensures Split([t] + rest, Separator(any), d) == Glue([t], Split(rest, Separator(any), d))
  {
    assert ([t] + rest)[1..] == rest;
  }

  lemma SplitHere(rest: seq<Token>, any: bool)
    ensures Split([Separator(any)] + rest, Separator(any), 0) == [[]] + Split(rest, Separator(any), 0)
  {
    assert ([Separator(any)] + rest)[1..] == rest;
  }

  lemma SplitShut(sql: Sql, any: bool)
    requires !Exposes(sql, any)
    ensures Split(Tokens(sql), Separator(any), 0) == [Tokens(sql)]
  {
    SplitThrough(sql, [], any, 0);
    assert Tokens(sql) + [] == Tokens(sql);
  }

  function Texts(parts: seq<Sql>): seq<seq<Token>> {
    seq(|parts|, i requires 0 <= i < |parts| => Tokens(parts[i]))
  }

  /** Joined texts come apart at their separators again. */
  lemma {:induction false} JoinSplits(parts: seq<Sql>, any: bool, rest: seq<Token>)
    requires parts != [] && forall p | p in parts :: !Exposes(p, any)
    ensures Split(Tokens(Join(parts, any)) + rest, Separator(any), 0) ==
      Texts(parts[..|parts| - 1]) + Glue(Tokens(parts[|parts| - 1]), Split(rest, Separator(any), 0))
    decreases |parts|
  {
    hide Split, Glue, Tokens, Exposes, Join, Texts;
    var sep, n := Separator(any), |parts| - 1;
    var last := parts[n];
    SplitThrough(last, rest, any, 0);
    if n == 0 {
      NoTexts(parts);
      JoinOne(parts, any);
    } else {
      var init := parts[..n];
      var after := [sep] + (Tokens(last) + rest);
      JoinSplits(init, any, after);
      SplitHere(Tokens(last) + rest, any);
      JoinTokens(parts, any);
      assert Tokens(Join(parts, any)) + rest == Tokens(Join(init, any)) + after;
      Regroup(init, Split(Tokens(last) + rest, sep, 0));
    }
  }

  lemma NoTexts(parts: seq<Sql>)
    requires parts != []
    ensures forall later :: Texts(parts[..0]) + later == later
  {
    assert Texts(parts[..0]) == [];
  }

  lemma Regroup(init: seq<Sql>, later: seq<seq<Token>>)
    requires init != []
    ensures Texts(init[..|init| - 1]) + Glue(Tokens(init[|init| - 1]), [[]] + later) == Texts(init) + later
  {
    hide Tokens;
    var x := Tokens(init[|init| - 1]);
    assert x + [] == x;
    assert ([[]] + later)[1..] == later;
    assert Texts(init) == Texts(init[..|init| - 1]) + [x];
  }

  lemma JoinOne(parts: seq<Sql>, any: bool)
    requires |parts| == 1
    ensures Join(parts, any) == parts[0]
  {}

  lemma JoinTokens(parts: seq<Sql>, any: bool)
    requires |parts| > 1
    ensures Tokens(Join(parts, any)) == Tokens(Join(parts[..|parts| - 1], any)) + [Separator(any)]
      + Tokens(parts[|parts| - 1])
  {
    var init, last := Join(parts[..|parts| - 1], any), parts[|parts| - 1];
    assert Tokens(init.K(any)) == Tokens(init) + [Separator(any)];
    assert Tokens(init.K(any).Then(last)) == Tokens(init.K(any)) + Tokens(last);
  }

  lemma {:induction false} JoinExposes(parts: seq<Sql>, any: bool)
    requires forall p | p in parts :: Shut(p)
    ensures !Exposes(Join(parts, any), !any)
    decreases |parts|
  {
    if |parts| == 1 { assert parts[0] in parts; }
    if |parts| > 1 {
      var init, last := Join(parts[..|parts| - 1], any), parts[|parts| - 1];
      JoinExposes(parts[..|parts| - 1], any);
      assert last in parts;
      assert !Exposes(init.K(any), !any);
      assert Exposes(init.K(any).Then(last), !any) == (Exposes(init.K(any), !any) || Exposes(last, !any));
    }
  }

  function Combine(any: bool, trees: seq<Tree>): Tree {
    if |trees| == 1 then trees[0] else if any then AnyTrees(trees) else AllTrees(trees)
  }

  function Trees(parts: seq<Sql>): seq<Tree> {
    seq(|parts|, i requires 0 <= i < |parts| => Read(Tokens(parts[i])))
  }

  /** Reading a join of shut texts gives the connective over their readings. */
  lemma {:induction false} ReadJoin(parts: seq<Sql>, any: bool)
    requires parts != [] && forall p | p in parts :: Shut(p)
    ensures Read(Tokens(Join(parts, any))) == Combine(any, Trees(parts))
  {
    hide Split, Join, Tokens, Exposes, Glue;
    if |parts| > 1 {
      var ts := Tokens(Join(parts, any));
      JoinComesApart(parts, any);
      JoinExposes(parts, any);
      if !any { SplitShut(Join(parts, any), true); }
      TreesOfTexts(parts);
      assert |Texts(parts)| == |parts|;
    } else {
      JoinOne(parts, any);
      assert Trees(parts) == [Read(Tokens(parts[0]))];
    }
  }

  lemma SplitNothing(sep: Token)
    ensures Split([], sep, 0) == [[]]
  {}

  lemma JoinComesApart(parts: seq<Sql>, any: bool)
    requires parts != [] && forall p | p in parts :: Shut(p)
    ensures Split(Tokens(Join(parts, any)), Separator(any), 0) == Texts(parts)
  {
    hide Tokens, Exposes, Join, Split;
    var ts := Tokens(Join(parts, any));
    JoinSplits(parts, any, []);
    assert ts + [] == ts;
    SplitNothing(Separator(any));
    var none: seq<seq<Token>> := [];
    Regroup(parts, none);
    assert [[]] + none == [[]];
    assert Texts(parts) + [] == Texts(parts);
  }

  lemma TreesOfTexts(parts: seq<Sql>)
    ensures seq(|Texts(parts)|, i requires 0 <= i < |Texts(parts)| => Read(Texts(parts)[i])) == Trees(parts)
  {
    hide Read;
  }

  /** Reading drops parentheses around a whole text. */
  lemma ReadParen(inner: Sql)
    ensures Read(Tokens(Paren(inner))) == Read(Tokens(inner))
  {
    var ts := Tokens(Paren(inner));
    SplitShut(Paren(inner), true);
    SplitShut(Paren(inner), false);
    hide Split;
    assert ts == [Open] + Tokens(inner) + [Close];
    assert ts[1..|ts| - 1] == Tokens(inner);
    LevelThrough(inner, [], 0);
    assert Tokens(inner) + [] == Tokens(inner);
  }

  // ---------------------------------------------------------------- conditions

  predicate StartsWithWord(sql: Sql) {
    match sql
    case Word(_) => true
    case Cat(first, _) => StartsWithWord(first)
    case _ => false
  }

  lemma {:induction false} FirstIsLexeme(sql: Sql)
    requires StartsWithWord(sql)
    ensures Tokens(sql) != [] && Tokens(sql)[0].Lexeme?
  {
    if sql.Cat? { FirstIsLexeme(sql.first); }
  }

  /** A text that exposes no connective and begins with a word is one leaf. */
  lemma ReadAtom(sql: Sql)
    requires Shut(sql) && StartsWithWord(sql)
    ensures Read(Tokens(sql)) == Leaf(Tokens(sql))
  {
    SplitShut(sql, true);
    SplitShut(sql, false);
    FirstIsLexeme(sql);
  }

  lemma Pieces()
    ensures forall a, b {:trigger Shut(Cat(a, b))} :: Shut(Cat(a, b)) == (Shut(a) && Shut(b))
    ensures forall a {:trigger Shut(Paren(a))} :: Shut(Paren(a))
    ensures forall t {:trigger Shut(Word(t))} :: Shut(Word(t))
    ensures forall t {:trigger Shut(Quoted(t))} :: Shut(Quoted(t))
    ensures forall v {:trigger Shut(Hole(v))} :: Shut(Hole(v))
    ensures Shut(Empty)
    ensures forall a, b {:trigger StartsWithWord(Cat(a, b))} :: StartsWithWord(Cat(a, b)) == StartsWithWord(a)
    ensures forall t {:trigger StartsWithWord(Word(t))} :: StartsWithWord(Word(t))
    ensures forall a, b {:trigger Full(Cat(a, b))} :: Full(Cat(a, b)) == (Full(a) && Full(b))
    ensures forall a {:trigger Full(Paren(a))} :: Full(Paren(a)) == Full(a)
    ensures forall t {:trigger Full(Word(t))} :: Full(Word(t))
    ensures forall t {:trigger Full(Quoted(t))} :: Full(Quoted(t))
    ensures forall t {:trigger Full(Connective(t))} :: Full(Connective(t))
    ensures forall v {:trigger Full(Hole(v))} :: Full(Hole(v)) == v.Some?
    ensures Full(Empty)
  {}

  /** Every placeholder holds a value. */
  predicate Full(sql: Sql) {
    match sql
    case Hole(v) => v.Some?
    case Paren(inner) => Full(inner)
    case Cat(first, second) => Full(first) && Full(second)
    case _ => true
  }

  lemma {:induction false} ListIsFull(vs: seq<Value>)
    ensures Full(List(vs))
    decreases |vs|
  {
    if |vs| > 1 { ListIsFull(vs[..|vs| - 1]); }
  }

  predicate Atomic(sql: Sql) { Shut(sql) && StartsWithWord(sql) && Full(sql) }

  lemma JsonIsAtomic(fn: Words, key: string)
    ensures Atomic(Json(fn, key))
  {
    hide Shut, StartsWithWord, Full, Column;
    Pieces();
  }

  lemma TestsAreAtomic(x: Sql, v: Sql, op: Words)
    requires Atomic(x) && Shut(v) && Full(v)
    ensures Atomic(NumberIs(x, op, v)) && Atomic(TextIs(x, op, v)) && Atomic(InList(x, v)) && Atomic(HasItem(x, v))
  {
    hide Shut, StartsWithWord, Full, NumberFunction;
    Pieces();
  }

  lemma TimesAreAtomic(x: Sql)
    requires Full(x)
    ensures Atomic(Parsed(x)) && Atomic(DaysAgo(x)) == Shut(x)
  {
    hide Shut, StartsWithWord, Full, TimeFunction;
    Pieces();
  }

  lemma {:induction false} ListIsShut(vs: seq<Value>)
    ensures Shut(List(vs))
    decreases |vs|
  {
    hide Shut;
    Pieces();
    if |vs| > 1 { ListIsShut(vs[..|vs| - 1]); }
  }

  lemma AttributeIsAtomic(key: string, op: AttributeOp, value: Value)
    requires AttributeSql(key, op, value).Some?
    ensures Atomic(AttributeSql(key, op, value).value)
  {
    hide Shut, StartsWithWord, Full, Json, List, Scalar, ArrayValues, IntValue, CompareText,
       H,
      NumberIs, TextIs, InList, HasItem, DaysAgo, Parsed;
    JsonIsAtomic(TextFunction(), key);
    JsonIsAtomic(RawFunction(), key);
    HolesAreFine();
    match op {
      case Exists => TestsAreAtomic(Raw(key), Quoted(""), IS_NOT);
      case NotExists => TestsAreAtomic(Raw(key), Quoted(""), IS);
      case Compare(cmp) => TestsAreAtomic(Text(key), H(Scalar(value).value.0), CompareText(cmp));
      case In =>
        ListIsFull(ArrayValues(value).value);
        ListIsShut(ArrayValues(value).value);
        TestsAreAtomic(Text(key), List(ArrayValues(value).value), COMMA);
      case Contains => TestsAreAtomic(Raw(key), H(Scalar(value).value.0), COMMA);
      case InLastDays => DaysAreAtomic(key, AT_LEAST, IntValue(value).value);
      case NotInLastDays => DaysAreAtomic(key, EARLIER, IntValue(value).value);
      case Before => DatesAreAtomic(key, EARLIER, Scalar(value).value.0);
      case After => DatesAreAtomic(key, LATER, Scalar(value).value.0);
      case OtherAttributeOp =>
    }
  }

  lemma HolesAreFine()
    ensures forall v :: Shut(H(v)) && Full(H(v))
    ensures Shut(Empty) && Full(Empty) && Shut(Quoted("")) && Full(Quoted("")) && Atomic(Word(ZERO))
  {}

  lemma DaysAreAtomic(key: string, op: Words, days: Value)
    requires Atomic(Text(key))
    ensures Atomic(TextIs(Parsed(Text(key)), op, DaysAgo(H(days))))
  {
    hide Shut, StartsWithWord, Full, Json, TextIs, DaysAgo, Parsed, H;
    HolesAreFine();
    TimesAreAtomic(Text(key));
    TimesAreAtomic(H(days));
    TestsAreAtomic(Parsed(Text(key)), DaysAgo(H(days)), op);
  }

  lemma DatesAreAtomic(key: string, op: Words, date: Value)
    requires Atomic(Text(key))
    ensures Atomic(TextIs(Parsed(Text(key)), op, Parsed(H(date))))
  {
    hide Shut, StartsWithWord, Full, Json, TextIs, Parsed, H;
    HolesAreFine();
    TimesAreAtomic(Text(key));
    TimesAreAtomic(H(date));
    TestsAreAtomic(Parsed(Text(key)), Parsed(H(date)), op);
  }

  lemma EventsAreFull(at: Scope, event: string, window: Option<Value>)
    ensures Full(Events(at, event)) && Full(Windowed(at, event, window))
  {
    hide Full, MergeScopeText, NoUser, MergedUserText, EventsJoinText, EventsScopeText, MergeSelectText,
      MergePairText, MergeAppText, MergeGroupedText, RowIfText, UnmergedText, EventsAppText, EventsNameText;
    Pieces();
  }

  lemma EventIsAtomic(at: Scope, event: string, op: EventOp, value: Value, window: Option<Value>)
    requires EventSql(at, event, op, value, window).Some?
    ensures Atomic(EventSql(at, event, op, value, window).value)
  {
    hide Shut, StartsWithWord, Full, CountedText, ServerTimeText, UserInText, UserNotInText, Events, Windowed, IntValue,
      GroupedText;
    Pieces();
    EventsAreFull(at, event, window);
  }

  lemma PlatformIsAtomic(vs: seq<Value>)
    ensures Atomic(PlatformIn(List(vs))) && Atomic(Word(ZERO))
  {
    hide Shut, StartsWithWord, Full, List, MemberText, PlatformsText;
    Pieces();
    ListIsFull(vs);
  }

  lemma ReachableIsShut(transactional: bool)
    ensures Shut(Reachable(transactional)) && Full(Reachable(transactional))
  {
    hide Shut, Full;
    Pieces();
  }

  /** No condition exposes a connective, and only the reachability condition is more than one leaf. */
  lemma {:induction false} ConditionIsShut(at: Scope, c: Condition)
    requires ConditionSql(at, c).Some?
    ensures Shut(ConditionSql(at, c).value) && Full(ConditionSql(at, c).value)
    ensures !(c.Channel? && c.channelOp.PushReachable?) ==>
      Read(Tokens(ConditionSql(at, c).value)) == Leaf(Tokens(ConditionSql(at, c).value))
  {
    hide Shut, Full, StartsWithWord, AttributeSql, EventSql, Read, Tokens, Reachable, PlatformIn, List;
    match c {
      case Attribute(key, op, value) => AttributeIsAtomic(key, op, value);
      case Event(event, op, value, window) => EventIsAtomic(at, event, op, value, window);
      case Channel(op, value) =>
        ReachableIsShut(at.transactional);
        if ArrayValues(value).Some? { PlatformIsAtomic(ArrayValues(value).value); }
      case _ =>
    }
    if !(c.Channel? && c.channelOp.PushReachable?) { ReadAtom(ConditionSql(at, c).value); }
  }

  // ---------------------------------------------------------------- the segment

  /** The tree a segment means: its scope, and its operators over its conditions. */
  function ConditionTree(at: Scope, c: Condition): Tree
    requires ConditionSql(at, c).Some?
  {
    Read(Tokens(ConditionSql(at, c).value))
  }

  predicate GroupSupported(at: Scope, g: Group) {
    !g.op.OtherLogical? && g.conditions != [] && forall i | 0 <= i < |g.conditions| ::
      ConditionSql(at, g.conditions[i]).Some?
  }

  predicate Supported(at: Scope, dsl: Segment) {
    dsl.version == 1 && !dsl.op.OtherLogical? && forall i | 0 <= i < |dsl.groups| :: GroupSupported(at, dsl.groups[i])
  }

  function GroupTree(at: Scope, g: Group): Tree
    requires GroupSupported(at, g)
  {
    Combine(g.op.AnyOf?, seq(|g.conditions|, i requires 0 <= i < |g.conditions| => ConditionTree(at, g.conditions[i])))
  }

  function ScopeTrees(at: Scope): seq<Tree> {
    [Leaf(Tokens(ScopeSqls(at)[0])), Leaf(Tokens(ScopeSqls(at)[1])), Leaf(Tokens(ScopeSqls(at)[2]))]
  }

  function SegmentTree(at: Scope, dsl: Segment): Tree
    requires Supported(at, dsl)
  {
    AllTrees(ScopeTrees(at) + if dsl.groups == [] then [] else
      [Combine(dsl.op.AnyOf?, seq(|dsl.groups|, i requires 0 <= i < |dsl.groups| => GroupTree(at, dsl.groups[i])))])
  }

  predicate EachCondition(at: Scope, cs: seq<Condition>, parts: seq<Sql>) {
    |parts| == |cs| && forall i | 0 <= i < |cs| :: ConditionSql(at, cs[i]) == Some(parts[i])
  }

  predicate EachGroup(at: Scope, gs: seq<Group>, parts: seq<Sql>) {
    |parts| == |gs| && forall i | 0 <= i < |gs| :: GroupSql(at, gs[i]) == Some(parts[i])
  }

  lemma {:induction false} ConditionsSupported(at: Scope, cs: seq<Condition>)
    ensures ConditionSqls(at, cs).Some? <==> forall i | 0 <= i < |cs| :: ConditionSql(at, cs[i]).Some?
    ensures ConditionSqls(at, cs).Some? ==> EachCondition(at, cs, ConditionSqls(at, cs).value)
  {
    hide ConditionSql;
    if cs != [] {
      var rest := cs[1..];
      ConditionsSupported(at, rest);
      assert forall i | 0 < i < |cs| :: cs[i] == rest[i - 1];
      if forall i | 0 <= i < |cs| :: ConditionSql(at, cs[i]).Some? {
        forall i | 0 <= i < |rest| ensures ConditionSql(at, rest[i]).Some? { assert rest[i] == cs[i + 1]; }
      }
    }
  }

  lemma GroupReads(at: Scope, g: Group)
    ensures GroupSql(at, g).Some? <==> GroupSupported(at, g)
    ensures GroupSql(at, g).Some? ==>
      Shut(GroupSql(at, g).value) && Full(GroupSql(at, g).value)
        && Read(Tokens(GroupSql(at, g).value)) == GroupTree(at, g)
  {
    hide ConditionSql, Read, Tokens, Shut, Full, ConditionSqls, Join;
    ConditionsSupported(at, g.conditions);
    if GroupSupported(at, g) {
      var parts := ConditionSqls(at, g.conditions).value;
      forall i | 0 <= i < |parts| ensures Shut(parts[i]) && Full(parts[i]) { ConditionIsShut(at, g.conditions[i]); }
      ReadJoin(parts, g.op.AnyOf?);
      ReadParen(Join(parts, g.op.AnyOf?));
      ParenIsShut(Join(parts, g.op.AnyOf?));
      JoinIsFull(parts, g.op.AnyOf?);
      assert Trees(parts) == seq(|g.conditions|,
        i requires 0 <= i < |g.conditions| => ConditionTree(at, g.conditions[i]));
    }
  }

  lemma ParenIsShut(x: Sql)
    ensures Shut(Paren(x)) && Full(Paren(x)) == Full(x)
  {}

  lemma {:induction false} JoinIsFull(parts: seq<Sql>, any: bool)
    requires forall p | p in parts :: Full(p)
    ensures Full(Join(parts, any))
    decreases |parts|
  {
    if |parts| > 1 { JoinIsFull(parts[..|parts| - 1], any); }
  }

  lemma {:induction false} GroupsSupported(at: Scope, gs: seq<Group>)
    ensures GroupSqls(at, gs).Some? <==> forall i | 0 <= i < |gs| :: GroupSupported(at, gs[i])
    ensures GroupSqls(at, gs).Some? ==> EachGroup(at, gs, GroupSqls(at, gs).value)
  {
    hide GroupSql, GroupSupported, Shut, Full, Read, GroupTree;
    if gs != [] {
      var rest := gs[1..];
      GroupReads(at, gs[0]);
      GroupsSupported(at, rest);
      assert forall i | 0 < i < |gs| :: gs[i] == rest[i - 1];
      assert GroupSupported(at, gs[0]) && (forall i | 0 <= i < |rest| :: GroupSupported(at, rest[i])) ==>
        forall i | 0 <= i < |gs| :: GroupSupported(at, gs[i]);
      if forall i | 0 <= i < |gs| :: GroupSupported(at, gs[i]) {
        forall i | 0 <= i < |rest| ensures GroupSupported(at, rest[i]) { assert rest[i] == gs[i + 1]; }
      }
    }
  }

  lemma ScopeReads(at: Scope)
    ensures |ScopeSqls(at)| == 3 && forall p | p in ScopeSqls(at) :: Atomic(p)
    ensures Trees(ScopeSqls(at)) == ScopeTrees(at)
  {
    hide Shut, StartsWithWord, Full, Read, Tokens;
    Pieces();
    var parts := ScopeSqls(at);
    forall i | 0 <= i < 3 ensures Atomic(parts[i]) && Read(Tokens(parts[i])) == Leaf(Tokens(parts[i])) {
      assert Atomic(parts[i]);
      ReadAtom(parts[i]);
    }
  }

  lemma GroupsRead(at: Scope, dsl: Segment)
    requires Supported(at, dsl) && dsl.groups != []
    ensures GroupSqls(at, dsl.groups).Some?
    ensures var inner := Paren(Join(GroupSqls(at, dsl.groups).value, dsl.op.AnyOf?));
      Shut(inner) && Full(inner) && Read(Tokens(inner)) ==
        Combine(dsl.op.AnyOf?, seq(|dsl.groups|, i requires 0 <= i < |dsl.groups| => GroupTree(at, dsl.groups[i])))
  {
    hide GroupSql, GroupSqls, GroupSupported, Read, Tokens, Shut, Full, Join, GroupTree;
    GroupsSupported(at, dsl.groups);
    var parts := GroupSqls(at, dsl.groups).value;
    forall i | 0 <= i < |parts| ensures Shut(parts[i]) && Full(parts[i])
      && Read(Tokens(parts[i])) == GroupTree(at, dsl.groups[i]) {
      GroupReads(at, dsl.groups[i]);
    }
    ReadJoin(parts, dsl.op.AnyOf?);
    ReadParen(Join(parts, dsl.op.AnyOf?));
    ParenIsShut(Join(parts, dsl.op.AnyOf?));
    JoinIsFull(parts, dsl.op.AnyOf?);
    assert Trees(parts) == seq(|dsl.groups|, i requires 0 <= i < |dsl.groups| => GroupTree(at, dsl.groups[i]));
  }

  /**
   A segment compiles exactly when it is supported, and its text reads as: tenant and app and active, and,
   when there are groups, the top operator over the groups' operators over their conditions.
   */
  lemma SegmentReadsAsWritten(at: Scope, dsl: Segment)
    ensures SegmentSql(at, dsl).Some? <==> Supported(at, dsl)
    ensures SegmentSql(at, dsl).Some? ==>
      Read(Tokens(SegmentSql(at, dsl).value)) == SegmentTree(at, dsl) && Full(SegmentSql(at, dsl).value)
  {
    hide GroupSqls, GroupSupported, Read, Tokens, Shut, Full, Join, GroupTree, ScopeSqls, StartsWithWord;
    GroupsSupported(at, dsl.groups);
    if Supported(at, dsl) {
      ScopeReads(at);
      var extra := if dsl.groups == [] then [] else [Paren(Join(GroupSqls(at, dsl.groups).value, dsl.op.AnyOf?))];
      if dsl.groups != [] { GroupsRead(at, dsl); }
      var parts := ScopeSqls(at) + extra;
      assert SegmentSql(at, dsl) == Some(Join(parts, false)) by { EmptyGroups(at, dsl); }
      ReadJoin(parts, false);
      JoinIsFull(parts, false);
      TreesAppend(ScopeSqls(at), extra);
    }
  }

  lemma EmptyGroups(at: Scope, dsl: Segment)
    requires GroupSqls(at, dsl.groups).Some? ==> |GroupSqls(at, dsl.groups).value| == |dsl.groups|
    ensures GroupSqls(at, dsl.groups).Some? ==> (GroupSqls(at, dsl.groups).value == [] <==> dsl.groups == [])
  {}

  lemma TreesAppend(a: seq<Sql>, b: seq<Sql>)
    ensures Trees(a + b) == Trees(a) + Trees(b)
  {
    hide Read, Tokens;
  }

  // ---------------------------------------------------------------- what the reading means

  ghost predicate ConditionHolds(at: Scope, c: Condition, atom: seq<Token> -> bool)
    requires ConditionSql(at, c).Some?
  {
    Truth(ConditionTree(at, c), atom)
  }

  ghost predicate GroupHolds(at: Scope, g: Group, atom: seq<Token> -> bool)
    requires GroupSupported(at, g)
  {
    if g.op.AnyOf? then exists i | 0 <= i < |g.conditions| :: ConditionHolds(at, g.conditions[i], atom)
    else forall i | 0 <= i < |g.conditions| :: ConditionHolds(at, g.conditions[i], atom)
  }

  ghost predicate SegmentHolds(at: Scope, dsl: Segment, atom: seq<Token> -> bool)
    requires Supported(at, dsl)
  {
    && (forall k | 0 <= k < 3 :: atom(Tokens(ScopeSqls(at)[k])))
    && (dsl.groups == [] ||
        if dsl.op.AnyOf? then exists i | 0 <= i < |dsl.groups| :: GroupHolds(at, dsl.groups[i], atom)
        else forall i | 0 <= i < |dsl.groups| :: GroupHolds(at, dsl.groups[i], atom))
  }

  lemma CombineTruth(any: bool, trees: seq<Tree>, atom: seq<Token> -> bool)
    requires trees != []
    ensures Truth(Combine(any, trees), atom) <==> if any then AnyTrue(trees, atom) else AllTrue(trees, atom)
  {}

  ghost predicate AllTrue(trees: seq<Tree>, atom: seq<Token> -> bool) {
    forall i | 0 <= i < |trees| :: Truth(trees[i], atom)
  }

  ghost predicate AnyTrue(trees: seq<Tree>, atom: seq<Token> -> bool) {
    exists i | 0 <= i < |trees| :: Truth(trees[i], atom)
  }

  lemma {:induction false} GroupTruth(at: Scope, g: Group, atom: seq<Token> -> bool)
    requires GroupSupported(at, g)
    ensures Truth(GroupTree(at, g), atom) <==> GroupHolds(at, g, atom)
  {
    hide ConditionSql, ConditionTree, Truth;
    var trees := seq(|g.conditions|, i requires 0 <= i < |g.conditions| => ConditionTree(at, g.conditions[i]));
    CombineTruth(g.op.AnyOf?, trees, atom);
    forall i | 0 <= i < |g.conditions| ensures Truth(trees[i], atom) <==> ConditionHolds(at, g.conditions[i], atom) {}
  }

  /** Under every truth assignment of its leaves, the compiled text is true exactly when the segment holds. */
  lemma {:induction false} CompiledTextMeansTheSegment(at: Scope, dsl: Segment, atom: seq<Token> -> bool)
    requires SegmentSql(at, dsl).Some?
    ensures Supported(at, dsl)
    ensures Truth(Read(Tokens(SegmentSql(at, dsl).value)), atom) <==> SegmentHolds(at, dsl, atom)
  {
    hide SegmentSql, GroupSupported, GroupTree, GroupHolds, Read, Tokens, ScopeSqls, Truth;
    SegmentReadsAsWritten(at, dsl);
    if dsl.groups == [] {
      ScopeTruth(at, [], atom);
    } else {
      var trees := seq(|dsl.groups|, i requires 0 <= i < |dsl.groups| => GroupTree(at, dsl.groups[i]));
      ScopeTruth(at, [Combine(dsl.op.AnyOf?, trees)], atom);
      CombineTruth(dsl.op.AnyOf?, trees, atom);
      GroupsTruth(at, dsl, trees, atom);
    }
  }

  lemma GroupsTruth(at: Scope, dsl: Segment, trees: seq<Tree>, atom: seq<Token> -> bool)
    requires Supported(at, dsl) && trees == seq(|dsl.groups|,
      i requires 0 <= i < |dsl.groups| => GroupTree(at, dsl.groups[i]))
    ensures AnyTrue(trees, atom) <==> exists i | 0 <= i < |dsl.groups| :: GroupHolds(at, dsl.groups[i], atom)
    ensures AllTrue(trees, atom) <==> forall i | 0 <= i < |dsl.groups| :: GroupHolds(at, dsl.groups[i], atom)
  {
    hide GroupSupported, GroupTree, GroupHolds, Truth;
    forall i | 0 <= i < |dsl.groups| ensures Truth(trees[i], atom) <==> GroupHolds(at, dsl.groups[i], atom) {
      GroupTruth(at, dsl.groups[i], atom);
    }
  }

  lemma ScopeTruth(at: Scope, extra: seq<Tree>, atom: seq<Token> -> bool)
    ensures Truth(AllTrees(ScopeTrees(at) + extra), atom) <==>
      (forall k | 0 <= k < 3 :: atom(Tokens(ScopeSqls(at)[k]))) && AllTrue(extra, atom)
  {
    hide Tokens;
    var all := ScopeTrees(at) + extra;
    assert Truth(all[0], atom) == atom(Tokens(ScopeSqls(at)[0]));
    assert Truth(all[1], atom) == atom(Tokens(ScopeSqls(at)[1]));
    assert Truth(all[2], atom) == atom(Tokens(ScopeSqls(at)[2]));
    forall i | 0 <= i < |extra| ensures all[i + 3] == extra[i] {}
  }

  // ---------------------------------------------------------------- arguments

  lemma {:induction false} FullIsBound(sql: Sql)
    requires Full(sql)
    ensures FullyBound(Tokens(sql))
  {
    match sql {
      case Paren(inner) => FullIsBound(inner);
      case Cat(first, second) => FullIsBound(first); FullIsBound(second);
      case _ =>
    }
  }

  /**
   Binding the k-th placeholder to the k-th argument gives back the bound text: each value ends up at the
   place it was written for.
   */
  lemma ArgumentsBindInOrder(at: Scope, dsl: Segment)
    requires SegmentSql(at, dsl).Some?
    ensures var bound := SegmentSql(at, dsl).value;
      Bind(Tokens(Erase(bound)), Push([], bound)) == Tokens(bound)
  {
    hide SegmentSql;
    var bound := SegmentSql(at, dsl).value;
    SegmentReadsAsWritten(at, dsl);
    FullIsBound(bound);
    TokensErase(bound);
    PushIsValues([], bound);
    assert [] + Values(Tokens(bound)) == Values(Tokens(bound));
    BindInvertsErase(Tokens(bound));
  }
}
