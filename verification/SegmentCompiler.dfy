/** The compiler: it prints text with empty placeholders while pushing their values onto one list. */
module SegmentCompiler {
  import opened Wrappers
  import opened SegmentDsl

  /** The text compiled and the arguments pushed meanwhile are those of the bound text. */
  predicate Emits(sql: Sql, before: seq<Value>, after: seq<Value>, bound: Sql) {
    sql == Erase(bound) && after == Push(before, bound)
  }

  predicate EmitsIf(sql: Option<Sql>, before: seq<Value>, after: seq<Value>, bound: Option<Sql>) {
    && (sql.Some? <==> bound.Some?)
    && (sql.Some? ==> Emits(sql.value, before, after, bound.value))
  }

  // ---------------------------------------------------------------- each template emits its parts in text order

  lemma Pieces()
    ensures forall a, b {:trigger Erase(Cat(a, b))} :: Erase(Cat(a, b)) == Cat(Erase(a), Erase(b))
    ensures forall a {:trigger Erase(Paren(a))} :: Erase(Paren(a)) == Paren(Erase(a))
    ensures forall t {:trigger Erase(Word(t))} :: Erase(Word(t)) == Word(t)
    ensures forall t {:trigger Erase(Quoted(t))} :: Erase(Quoted(t)) == Quoted(t)
    ensures forall v {:trigger Erase(Hole(v))} :: Erase(Hole(v)) == Hole(None)
    ensures forall t {:trigger Erase(Connective(t))} :: Erase(Connective(t)) == Connective(t)
    ensures Erase(Empty) == Empty
    ensures forall args, a, b {:trigger Push(args, Cat(a, b))} :: Push(args, Cat(a, b)) == Push(Push(args, a), b)
    ensures forall args, a {:trigger Push(args, Paren(a))} :: Push(args, Paren(a)) == Push(args, a)
    ensures forall args, t {:trigger Push(args, Word(t))} :: Push(args, Word(t)) == args
    ensures forall args, t {:trigger Push(args, Quoted(t))} :: Push(args, Quoted(t)) == args
    ensures forall args, v {:trigger Push(args, Hole(Some(v)))} :: Push(args, Hole(Some(v))) == args + [v]
    ensures forall args, t {:trigger Push(args, Connective(t))} :: Push(args, Connective(t)) == args
    ensures forall args {:trigger Push(args, Empty)} :: Push(args, Empty) == args
  {}

  lemma JsonParts(fn: Words, key: string, args: seq<Value>)
    ensures Erase(Json3(fn, H(Str(key)), H(Str(key)), H(Str(key)))) == Json3(fn, Q(), Q(), Q())
    ensures Push(args, Json3(fn, H(Str(key)), H(Str(key)), H(Str(key)))) == args + [Str(key)] + [Str(key)] + [Str(key)]
    ensures Erase(Json1(fn, Column(key), H(Str(key)))) == Json1(fn, Column(key), Q())
    ensures Push(args, Json1(fn, Column(key), H(Str(key)))) == args + [Str(key)]
  {
    hide Push, Erase, Column, StdKeyText, CustomKeyText;
    Pieces();
  }

  lemma ValueParts(x: Sql, v: Sql, op: Words, args: seq<Value>)
    ensures Erase(NumberIs(x, op, v)) == NumberIs(Erase(x), op, Erase(v))
      && Push(args, NumberIs(x, op, v)) == Push(Push(args, x), v)
    ensures Erase(TextIs(x, op, v)) == TextIs(Erase(x), op, Erase(v))
      && Push(args, TextIs(x, op, v)) == Push(Push(args, x), v)
    ensures Erase(InList(x, v)) == InList(Erase(x), Erase(v)) && Push(args, InList(x, v)) == Push(Push(args, x), v)
    ensures Erase(HasItem(x, v)) == HasItem(Erase(x), Erase(v)) && Push(args, HasItem(x, v)) == Push(Push(args, x), v)
  {
    hide Push, Erase, NumberFunction;
    Pieces();
  }

  lemma WrapParts(x: Sql, column: Words, args: seq<Value>)
    ensures Erase(Parsed(x)) == Parsed(Erase(x)) && Push(args, Parsed(x)) == Push(args, x)
    ensures Erase(DaysAgo(x)) == DaysAgo(Erase(x)) && Push(args, DaysAgo(x)) == Push(args, x)
    ensures Erase(PlatformIn(x)) == PlatformIn(Erase(x)) && Push(args, PlatformIn(x)) == Push(args, x)
    ensures Erase(ScopeIs(column, x)) == ScopeIs(column, Erase(x)) && Push(args, ScopeIs(column, x)) == Push(args, x)
  {
    hide Push, Erase, TimeFunction, MemberText, PlatformsText, IsUuidText;
    Pieces();
  }

  lemma {:induction false} MergeParts(a: Sql, b: Sql, args: seq<Value>)
    ensures Erase(MergeMap(a, b)) == MergeMap(Erase(a), Erase(b))
      && Push(args, MergeMap(a, b)) == Push(Push(args, a), b)
  {
    hide Push, Erase, MergeScopeText, MergeSelectText, MergePairText, MergeAppText, MergeGroupedText;
    Pieces();
  }

  lemma RowsErase(a: Sql, b: Sql, c: Sql, d: Sql)
    ensures Erase(EventRows(a, b, c, d)) == EventRows(Erase(a), Erase(b), Erase(c), Erase(d))
  {
    hide Erase, NoUser, MergedUserText, EventsJoinText, EventsScopeText, RowIfText, UnmergedText, EventsAppText,
      EventsNameText;
    Pieces();
  }

  lemma RowsPush(a: Sql, b: Sql, c: Sql, d: Sql, args: seq<Value>)
    ensures Push(args, EventRows(a, b, c, d)) == Push(Push(Push(Push(args, a), b), c), d)
  {
    hide Push, NoUser, MergedUserText, EventsJoinText, EventsScopeText, RowIfText, UnmergedText, EventsAppText,
      EventsNameText;
    Pieces();
  }

  lemma {:induction false} RecentParts(rows: Sql, days: Sql, args: seq<Value>)
    ensures Erase(Recent(rows, days)) == Recent(Erase(rows), Erase(days))
      && Push(args, Recent(rows, days)) == Push(Push(args, rows), days)
  {
    hide Push, Erase, DaysAgo, SinceText;
    Pieces();
    WrapParts(days, COMMA, Push(args, rows));
  }

  lemma UserParts(rows: Sql, verb: Words, args: seq<Value>)
    ensures Erase(UserIn(verb, rows)) == UserIn(verb, Erase(rows)) && Push(args, UserIn(verb, rows)) == Push(args, rows)
  {
    hide Push, Erase, UserInText, GroupedText;
    Pieces();
  }

  lemma {:induction false} CountParts(rows: Sql, n: Sql, op: Words, args: seq<Value>)
    ensures Erase(UserCounts(rows, op, n)) == UserCounts(Erase(rows), op, Erase(n))
      && Push(args, UserCounts(rows, op, n)) == Push(Push(args, rows), n)
  {
    hide Push, Erase, UserInText, GroupedText, CountedText;
    Pieces();
  }

  lemma WhenParts(rows: Sql, days: Sql, extreme: Words, args: seq<Value>)
    ensures Erase(UserWhen(rows, extreme, days)) == UserWhen(Erase(rows), extreme, Erase(days))
    ensures Push(args, UserWhen(rows, extreme, days)) == Push(Push(args, rows), days)
  {
    hide Push, Erase, UserInText, GroupedText, ServerTimeText, DaysAgo;
    Pieces();
    WrapParts(days, COMMA, Push(args, rows));
  }

  lemma NoValues(args: seq<Value>, transactional: bool)
    ensures Erase(Empty) == Empty && Push(args, Empty) == args
    ensures Erase(Word(ZERO)) == Word(ZERO) && Push(args, Word(ZERO)) == args
    ensures Erase(Quoted("")) == Quoted("") && Push(args, Quoted("")) == args
    ensures Erase(Reachable(transactional)) == Reachable(transactional) && Push(args, Reachable(transactional)) == args
  {
    hide Push, Erase, OptInText, GrantedText, ActiveTokenText;
    Pieces();
  }

  // ---------------------------------------------------------------- lists of texts

  lemma ListGrows(vs: seq<Value>, v: Value, args: seq<Value>)
    ensures Erase(List(vs + [v])) == if vs == [] then Q() else Erase(List(vs)).W(COMMA).Then(Q())
    ensures Push(args, List(vs + [v])) == Push(args, List(vs)) + [v]
  {
    hide Push, Erase;
    Pieces();
    assert (vs + [v])[..|vs|] == vs;
  }

  lemma JoinGrows(parts: seq<Sql>, part: Sql, any: bool, args: seq<Value>)
    ensures Erase(Join(parts + [part], any)) == if parts == [] then Erase(part)
      else Erase(Join(parts, any)).K(any).Then(Erase(part))
    ensures Push(args, Join(parts + [part], any)) == Push(Push(args, Join(parts, any)), part)
  {
    hide Push, Erase;
    Pieces();
    assert (parts + [part])[..|parts|] == parts;
  }

  lemma {:induction false} ConditionsGrow(at: Scope, cs: seq<Condition>, c: Condition)
    ensures ConditionSqls(at, cs + [c]) ==
      if ConditionSqls(at, cs).None? || ConditionSql(at, c).None? then None
      else Some(ConditionSqls(at, cs).value + [ConditionSql(at, c).value])
  {
    hide ConditionSql;
    if cs == [] {
      assert cs + [c] == [c];
      assert ConditionSqls(at, [c][1..]) == Some([]);
      assert ConditionSql(at, c).Some? ==> [ConditionSql(at, c).value] + [] == [] + [ConditionSql(at, c).value];
    } else {
      var rest := cs[1..];
      ConditionsGrow(at, rest, c);
      assert (cs + [c])[1..] == rest + [c] && (cs + [c])[0] == cs[0];
      if ConditionSql(at, cs[0]).Some? && ConditionSqls(at, rest).Some? && ConditionSql(at, c).Some? {
        var first, later, last := ConditionSql(at, cs[0]).value, ConditionSqls(at, rest).value,
          ConditionSql(at, c).value;
        assert [first] + (later + [last]) == ([first] + later) + [last];
      }
    }
  }

  lemma {:induction false} ConditionsFail(at: Scope, cs: seq<Condition>, i: nat)
    requires i < |cs| && ConditionSql(at, cs[i]).None?
    ensures ConditionSqls(at, cs).None?
  {
    hide ConditionSql;
    if i > 0 { ConditionsFail(at, cs[1..], i - 1); }
  }

  lemma {:induction false} GroupsGrow(at: Scope, gs: seq<Group>, g: Group)
    ensures GroupSqls(at, gs + [g]) ==
      if GroupSqls(at, gs).None? || GroupSql(at, g).None? then None
      else Some(GroupSqls(at, gs).value + [GroupSql(at, g).value])
  {
    hide GroupSql;
    if gs == [] {
      assert gs + [g] == [g];
      assert GroupSqls(at, [g][1..]) == Some([]);
      assert GroupSql(at, g).Some? ==> [GroupSql(at, g).value] + [] == [] + [GroupSql(at, g).value];
    } else {
      var rest := gs[1..];
      GroupsGrow(at, rest, g);
      assert (gs + [g])[1..] == rest + [g] && (gs + [g])[0] == gs[0];
      if GroupSql(at, gs[0]).Some? && GroupSqls(at, rest).Some? && GroupSql(at, g).Some? {
        var first, later, last := GroupSql(at, gs[0]).value, GroupSqls(at, rest).value, GroupSql(at, g).value;
        assert [first] + (later + [last]) == ([first] + later) + [last];
      }
    }
  }

  lemma {:induction false} GroupsFail(at: Scope, gs: seq<Group>, i: nat)
    requires i < |gs| && GroupSql(at, gs[i]).None?
    ensures GroupSqls(at, gs).None?
  {
    hide GroupSql;
    if i > 0 { GroupsFail(at, gs[1..], i - 1); }
  }

  // ---------------------------------------------------------------- the compiler

  class Params {
    var args: seq<Value>

    constructor ()
      ensures args == []
    {
      args := [];
    }

    method Add(v: Value) returns (sql: Sql)
      modifies this
      ensures sql == Q() && args == old(args) + [v]
      ensures Emits(sql, old(args), args, H(v))
    {
      args := args + [v];
      return Hole(None);
    }

    method JsonExtract(fn: Words, key: string) returns (sql: Sql)
      modifies this
      ensures Emits(sql, old(args), args, Json(fn, key))
    {
      hide Erase, Push, Json1, Json3, H, Q, Column;
      JsonParts(fn, key, args);
      if key in PROMOTED {
        var has := Add(Str(key));
        var std := Add(Str(key));
        var custom := Add(Str(key));
        sql := Json3(fn, has, std, custom);
      } else {
        var one := Add(Str(key));
        sql := Json1(fn, Column(key), one);
      }
    }

    method AddList(vs: seq<Value>) returns (sql: Sql)
      modifies this
      ensures Emits(sql, old(args), args, List(vs))
    {
      hide Erase, Push, List;
      sql := Empty;
      EmptyList(args);
      for i := 0 to |vs|
        invariant Emits(sql, old(args), args, List(vs[..i]))
      {
        ListGrows(vs[..i], vs[i], old(args));
        assert vs[..i + 1] == vs[..i] + [vs[i]];
        var one := Add(vs[i]);
        sql := if i == 0 then one else sql.W(COMMA).Then(one);
      }
      assert vs[..|vs|] == vs;
    }

    method CompileAttribute(key: string, op: AttributeOp, value: Value) returns (sql: Option<Sql>)
      modifies this
      ensures EmitsIf(sql, old(args), args, AttributeSql(key, op, value))
    {
      hide Emits, Text, Raw, CompareSql, InSql, ContainsSql, DaysSql, DateSql, CompareText;
      if key == "" { return None; }
      match op {
        case Exists => sql := CompileExists(key, IS_NOT);
        case NotExists => sql := CompileExists(key, IS);
        case Compare(cmp) => sql := CompileCompare(key, CompareText(cmp), value);
        case In => sql := CompileIn(key, value);
        case Contains => sql := CompileContains(key, value);
        case InLastDays => sql := CompileDays(key, AT_LEAST, value);
        case NotInLastDays => sql := CompileDays(key, EARLIER, value);
        case Before => sql := CompileDate(key, EARLIER, value);
        case After => sql := CompileDate(key, LATER, value);
        case OtherAttributeOp => return None;
      }
    }

    method CompileExists(key: string, test: Words) returns (sql: Option<Sql>)
      modifies this
      ensures EmitsIf(sql, old(args), args, Some(TextIs(Raw(key), test, Quoted(""))))
    {
      hide Erase, Push, TextIs, Json, RawFunction;
      ValueParts(Raw(key), Quoted(""), test, args);
      var raw := JsonExtract(RawFunction(), key);
      NoValues(args, false);
      sql := Some(TextIs(raw, test, Quoted("")));
    }

    method CompileCompare(key: string, op: Words, value: Value) returns (sql: Option<Sql>)
      modifies this
      ensures EmitsIf(sql, old(args), args, CompareSql(key, op, value))
    {
      hide Erase, Push, NumberIs, TextIs, Json, H, Scalar, TextFunction;
      var scalar := Scalar(value);
      if scalar.None? { return None; }
      ValueParts(Text(key), H(scalar.value.0), op, args);
      var text := JsonExtract(TextFunction(), key);
      var one := Add(scalar.value.0);
      sql := Some(if scalar.value.1 then NumberIs(text, op, one) else TextIs(text, op, one));
    }

    method CompileIn(key: string, value: Value) returns (sql: Option<Sql>)
      modifies this
      ensures EmitsIf(sql, old(args), args, InSql(key, value))
    {
      hide Erase, Push, InList, Json, List, ArrayValues, TextFunction;
      var vals := ArrayValues(value);
      if vals.None? { return None; }
      NoValues(args, false);
      if vals.value == [] { return Some(Word(ZERO)); }
      ValueParts(Text(key), List(vals.value), COMMA, args);
      var text := JsonExtract(TextFunction(), key);
      var list := AddList(vals.value);
      sql := Some(InList(text, list));
    }

    method CompileContains(key: string, value: Value) returns (sql: Option<Sql>)
      modifies this
      ensures EmitsIf(sql, old(args), args, ContainsSql(key, value))
    {
      hide Erase, Push, HasItem, Json, H, Scalar, RawFunction;
      var scalar := Scalar(value);
      if scalar.None? { return None; }
      ValueParts(Raw(key), H(scalar.value.0), COMMA, args);
      var raw := JsonExtract(RawFunction(), key);
      var one := Add(scalar.value.0);
      sql := Some(HasItem(raw, one));
    }

    method CompileDays(key: string, op: Words, value: Value) returns (sql: Option<Sql>)
      modifies this
      ensures EmitsIf(sql, old(args), args, DaysSql(key, op, value))
    {
      hide Erase, Push, TextIs, Parsed, DaysAgo, Json, H, IntValue, TextFunction;
      var days := IntValue(value);
      if days.None? { return None; }
      ValueParts(Parsed(Text(key)), DaysAgo(H(days.value)), op, args);
      WrapParts(Text(key), COMMA, args);
      var text := JsonExtract(TextFunction(), key);
      WrapParts(H(days.value), COMMA, args);
      var one := Add(days.value);
      sql := Some(TextIs(Parsed(text), op, DaysAgo(one)));
    }

    method CompileDate(key: string, op: Words, value: Value) returns (sql: Option<Sql>)
      modifies this
      ensures EmitsIf(sql, old(args), args, DateSql(key, op, value))
    {
      hide Erase, Push, TextIs, Parsed, Json, H, Scalar, TextFunction;
      var scalar := Scalar(value);
      if scalar.None? { return None; }
      ValueParts(Parsed(Text(key)), Parsed(H(scalar.value.0)), op, args);
      WrapParts(Text(key), COMMA, args);
      var text := JsonExtract(TextFunction(), key);
      WrapParts(H(scalar.value.0), COMMA, args);
      var one := Add(scalar.value.0);
      sql := Some(TextIs(Parsed(text), op, Parsed(one)));
    }

    method CompileChannel(op: ChannelOp, value: Value, transactional: bool) returns (sql: Option<Sql>)
      modifies this
      ensures EmitsIf(sql, old(args), args, ChannelSql(op, value, transactional))
    {
      hide Erase, Push, PlatformIn, List, Reachable, ArrayValues;
      NoValues(args, transactional);
      match op {
        case PushReachable => return Some(Reachable(transactional));
        case TokenPlatformIn =>
          var vals := ArrayValues(value);
          if vals.None? { return None; }
          if vals.value == [] { return Some(Word(ZERO)); }
          if exists v | v in vals.value :: !(v.Str? && v.s in PLATFORMS) { return None; }
          WrapParts(List(vals.value), COMMA, args);
          var list := AddList(vals.value);
          return Some(PlatformIn(list));
        case OtherChannelOp => return None;
      }
    }

    /** Bound in text order: first the join's scope, then the events' scope and name. */
    method CompileEvents(at: Scope, event: string) returns (sql: Sql)
      modifies this
      ensures Emits(sql, old(args), args, Events(at, event))
    {
      hide Erase, Push, MergeMap, EventRows, H;
      var t, a, e := H(Str(at.tenant)), H(Str(at.app)), H(Str(event));
      MergeParts(t, a, args);
      RowsErase(MergeMap(t, a), t, a, e);
      RowsPush(MergeMap(t, a), t, a, e, args);
      var joinTenant := Add(Str(at.tenant));
      var joinApp := Add(Str(at.app));
      var merges := MergeMap(joinTenant, joinApp);
      var tenant := Add(Str(at.tenant));
      var app := Add(Str(at.app));
      var name := Add(Str(event));
      sql := EventRows(merges, tenant, app, name);
    }

    method CompileWindowed(at: Scope, event: string, window: Option<Value>) returns (sql: Sql)
      modifies this
      ensures Emits(sql, old(args), args, Windowed(at, event, window))
    {
      hide Erase, Push, Events, Recent, H;
      ghost var before := args;
      sql := CompileEvents(at, event);
      if window.Some? {
        RecentParts(Events(at, event), H(window.value), before);
        var days := Add(window.value);
        sql := Recent(sql, days);
      }
    }

    method CompileEvent(at: Scope, event: string, op: EventOp, value: Value, window: Option<Value>)
        returns (sql: Option<Sql>)
      modifies this
      ensures EmitsIf(sql, old(args), args, EventSql(at, event, op, value, window))
    {
      hide Emits, Windowed, UserIn, CountSql, WhenSql;
      if event == "" { return None; }
      match op {
        case Performed => sql := CompilePerformed(at, event, UserInText(), window);
        case NotPerformed => sql := CompilePerformed(at, event, UserNotInText(), window);
        case CountGte => sql := CompileCount(at, event, AT_LEAST, value, window);
        case CountLte => sql := CompileCount(at, event, AT_MOST, value, window);
        case FirstPerformed => sql := CompileWhen(at, event, MIN, window);
        case LastPerformed => sql := CompileWhen(at, event, MAX, window);
        case OtherEventOp => return None;
      }
    }

    method CompilePerformed(at: Scope, event: string, verb: Words, window: Option<Value>) returns (sql: Option<Sql>)
      modifies this
      ensures EmitsIf(sql, old(args), args, Some(UserIn(verb, Windowed(at, event, window))))
    {
      hide Erase, Push, Windowed, UserIn;
      UserParts(Windowed(at, event, window), verb, args);
      var rows := CompileWindowed(at, event, window);
      sql := Some(UserIn(verb, rows));
    }

    method CompileCount(at: Scope, event: string, op: Words, value: Value, window: Option<Value>)
        returns (sql: Option<Sql>)
      modifies this
      ensures EmitsIf(sql, old(args), args, CountSql(at, event, op, value, window))
    {
      hide Erase, Push, Windowed, UserCounts, H, IntValue;
      var n := IntValue(value);
      if n.None? { return None; }
      CountParts(Windowed(at, event, window), H(n.value), op, args);
      var rows := CompileWindowed(at, event, window);
      var one := Add(n.value);
      sql := Some(UserCounts(rows, op, one));
    }

    /** The window is the bound of the first or last event here, not a filter on the events. */
    method CompileWhen(at: Scope, event: string, extreme: Words, window: Option<Value>) returns (sql: Option<Sql>)
      modifies this
      ensures EmitsIf(sql, old(args), args, WhenSql(at, event, extreme, window))
    {
      hide Erase, Push, Events, UserWhen, H;
      if window.None? { return None; }
      WhenParts(Events(at, event), H(window.value), extreme, args);
      var rows := CompileEvents(at, event);
      var days := Add(window.value);
      sql := Some(UserWhen(rows, extreme, days));
    }

    method CompileCondition(at: Scope, c: Condition) returns (sql: Option<Sql>)
      modifies this
      ensures EmitsIf(sql, old(args), args, ConditionSql(at, c))
    {
      hide Emits, AttributeSql, EventSql, ChannelSql;
      match c {
        case Attribute(key, op, value) => sql := CompileAttribute(key, op, value);
        case Channel(op, value) => sql := CompileChannel(op, value, at.transactional);
        case Event(event, op, value, window) => sql := CompileEvent(at, event, op, value, window);
        case Device => return None;
        case OtherCondition => return None;
      }
    }

    method CompileGroup(at: Scope, g: Group) returns (sql: Option<Sql>)
      modifies this
      ensures EmitsIf(sql, old(args), args, GroupSql(at, g))
    {
      hide Erase, Push, ConditionSql, Join;
      if g.op.OtherLogical? || g.conditions == [] { return None; }
      var text := Empty;
      ghost var parts: seq<Sql> := [];
      EmptyJoin(args, g.op.AnyOf?);
      for i := 0 to |g.conditions|
        invariant ConditionSqls(at, g.conditions[..i]) == Some(parts) && |parts| == i
        invariant Emits(text, old(args), args, Join(parts, g.op.AnyOf?))
      {
        hide ConditionSqls;
        ghost var bound := ConditionSql(at, g.conditions[i]);
        assert g.conditions[..i + 1] == g.conditions[..i] + [g.conditions[i]];
        ConditionsGrow(at, g.conditions[..i], g.conditions[i]);
        if bound.None? { ConditionsFail(at, g.conditions, i); }
        var part := CompileCondition(at, g.conditions[i]);
        if part.None? { return None; }
        JoinGrows(parts, bound.value, g.op.AnyOf?, old(args));
        text := if i == 0 then part.value else text.K(g.op.AnyOf?).Then(part.value);
        parts := parts + [bound.value];
      }
      assert g.conditions[..|g.conditions|] == g.conditions;
      ParenParts(Join(parts, g.op.AnyOf?), old(args));
      sql := Some(Paren(text));
    }

    /** The groups, compiled one after the other and joined by the top operator. */
    method CompileGroups(at: Scope, groups: seq<Group>, any: bool) returns (sql: Option<Sql>)
      modifies this
      ensures EmitsIf(sql, old(args), args, if GroupSqls(at, groups).None? then None
        else Some(Join(GroupSqls(at, groups).value, any)))
    {
      hide Erase, Push, GroupSql, Join;
      var text := Empty;
      ghost var parts: seq<Sql> := [];
      EmptyJoin(args, any);
      for i := 0 to |groups|
        invariant GroupSqls(at, groups[..i]) == Some(parts) && |parts| == i
        invariant Emits(text, old(args), args, Join(parts, any))
      {
        hide GroupSqls;
        ghost var bound := GroupSql(at, groups[i]);
        assert groups[..i + 1] == groups[..i] + [groups[i]];
        GroupsGrow(at, groups[..i], groups[i]);
        if bound.None? { GroupsFail(at, groups, i); }
        var part := CompileGroup(at, groups[i]);
        if part.None? { return None; }
        JoinGrows(parts, bound.value, any, old(args));
        text := if i == 0 then part.value else text.K(any).Then(part.value);
        parts := parts + [bound.value];
      }
      assert groups[..|groups|] == groups;
      sql := Some(text);
    }
  }

  lemma EmptyList(args: seq<Value>)
    ensures Emits(Empty, args, args, List([]))
  {}

  lemma EmptyJoin(args: seq<Value>, any: bool)
    ensures Emits(Empty, args, args, Join([], any))
  {}

  lemma ParenParts(x: Sql, args: seq<Value>)
    ensures Erase(Paren(x)) == Paren(Erase(x)) && Push(args, Paren(x)) == Push(args, x)
  {}

  datatype Compiled = Compiled(where: Sql, args: seq<Value>)

  lemma ThreeParts(at: Scope, a: Sql, b: Sql, c: Sql)
    ensures Join([a, b, c], false) == a.K(false).Then(b).K(false).Then(c)
  {
    assert [a, b, c][..2] == [a, b] && [a, b][..1] == [a];
    assert Join([a, b], false) == a.K(false).Then(b);
  }

  lemma ScopeParts(at: Scope)
    ensures Erase(Join(ScopeSqls(at), false))
      == Join([ScopeIs(TENANT_ID, Q()), ScopeIs(APP_ID, Q()), StatusActive()], false)
    ensures Push([], Join(ScopeSqls(at), false)) == [Str(at.tenant), Str(at.app)]
  {
    hide Join, Push, Erase;
    ThreeParts(at, ScopeIs(TENANT_ID, H(Str(at.tenant))), ScopeIs(APP_ID, H(Str(at.app))),
      StatusActive());
    ThreeParts(at, ScopeIs(TENANT_ID, Q()), ScopeIs(APP_ID, Q()), StatusActive());
    Pieces();
  }

  /**
   The compiler. It succeeds exactly on the supported segments, and its text and arguments are those of the
   bound text.
   */
  method Compile(at: Scope, dsl: Segment) returns (compiled: Option<Compiled>)
    ensures compiled.Some? <==> SegmentSql(at, dsl).Some?
    ensures compiled.Some? ==> Emits(compiled.value.where, [], compiled.value.args, SegmentSql(at, dsl).value)
  {
    hide Erase, Push, Join, GroupSqls, ScopeIs, ScopeSqls;
    if dsl.version != 1 || dsl.op.OtherLogical? { return None; }
    var p := new Params();
    var tenant := p.Add(Str(at.tenant));
    var app := p.Add(Str(at.app));
    ScopeParts(at);
    var where := Join([ScopeIs(TENANT_ID, tenant), ScopeIs(APP_ID, app), StatusActive()], false);
    ghost var scope := Join(ScopeSqls(at), false);
    assert p.args == Push([], scope);
    NoGroups(at);
    if dsl.groups == [] {
      return Some(Compiled(where, p.args));
    }
    var groups := p.CompileGroups(at, dsl.groups, dsl.op.AnyOf?);
    if groups.None? { return None; }
    GroupsNonempty(at, dsl.groups);
    ghost var bound := Paren(Join(GroupSqls(at, dsl.groups).value, dsl.op.AnyOf?));
    ParenParts(Join(GroupSqls(at, dsl.groups).value, dsl.op.AnyOf?), Push([], scope));
    JoinGrows(ScopeSqls(at), bound, false, []);
    compiled := Some(Compiled(where.K(false).Then(Paren(groups.value)), p.args));
  }

  lemma NoGroups(at: Scope)
    ensures GroupSqls(at, []) == Some([])
    ensures ScopeSqls(at) + [] == ScopeSqls(at) && |ScopeSqls(at)| == 3
  {
    hide ScopeIs, StatusActive, H, GroupSql;
  }

  lemma GroupsNonempty(at: Scope, gs: seq<Group>)
    requires gs != [] && GroupSqls(at, gs).Some?
    ensures GroupSqls(at, gs).value != []
  {}
}
