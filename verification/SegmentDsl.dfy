/** The segment language, and the bound SQL that each of its parts stands for. */
module SegmentDsl {
  import opened Wrappers

  // ---------------------------------------------------------------- the language

  /** An untyped value; a number carries the text JavaScript prints it as. */
  datatype Value = Str(s: string) | Num(n: real, text: string) | Bool(b: bool) | Arr(items: seq<Value>) | Other

  datatype LogicalOp = AllOf | AnyOf | OtherLogical
  datatype CompareOp = Eq | Neq | Gt | Gte | Lt | Lte
  datatype AttributeOp =
    | Exists | NotExists | Compare(cmp: CompareOp) | In | Contains | Before | After | InLastDays | NotInLastDays
    | OtherAttributeOp
  datatype EventOp = CountGte | CountLte | Performed | NotPerformed | FirstPerformed | LastPerformed | OtherEventOp
  datatype ChannelOp = PushReachable | TokenPlatformIn | OtherChannelOp

  datatype Condition =
    | Attribute(key: string, op: AttributeOp, value: Value)
    | Event(event: string, eventOp: EventOp, value: Value, window: Option<Value>)
    | Channel(channelOp: ChannelOp, value: Value)
    | Device
    | OtherCondition

  datatype Group = Group(op: LogicalOp, conditions: seq<Condition>)
  datatype Segment = Segment(version: int, op: LogicalOp, groups: seq<Group>)
  datatype Scope = Scope(tenant: string, app: string, transactional: bool)

  const STD_ATTR_KEYS: set<string> := {
    "external_id", "first_name", "last_name", "email", "phone", "language", "country", "timezone", "created_at",
    "last_seen_at", "dob", "gender", "home_city" }
  const PROMOTED: set<string> := {"dob", "gender", "home_city"}
  const PLATFORMS: set<string> := {"ios", "android"}

  // ---------------------------------------------------------------- SQL text

  /**
   Text between the marks, quotes, parentheses and connectives. It spells none of them, and no part of " AND " or
   " OR " that its neighbours could complete.
   */
  predicate Plain(s: string) { s != "" && s[0] != 'D' && s[0] != 'R' && PlainFrom(s, 0) }

  predicate PlainFrom(s: string, i: nat)
    decreases |s| - i
  {
    i >= |s| || (!Special(s[i]) && (i == 0 || !Joins(s[i - 1], s[i])) && PlainFrom(s, i + 1))
  }

  predicate Special(c: char) { c == '?' || c == '\'' || c == '(' || c == ')' }

  /** The second and third letters of a connective. */
  predicate Joins(a: char, b: char) { (a == 'N' && b == 'D') || (a == 'O' && b == 'R') }

  type Words = s: string | Plain(s) witness "x"

  /** The inside of a text in quotes; values are bound, never spelled out. */
  type Quotable = s: string | '?' !in s && '\'' !in s witness ""

  lemma {:induction false} PlainAt(s: string, i: nat, j: nat)
    requires PlainFrom(s, i) && i <= j < |s|
    ensures !Special(s[j]) && (j > 0 ==> !Joins(s[j - 1], s[j]))
    decreases j - i
  {
    if i < j { PlainAt(s, i + 1, j); }
  }

  lemma {:induction false} PlainAppend(a: string, b: string, i: nat)
    requires Plain(a) && Plain(b) && PlainFrom(a, i)
    ensures PlainFrom(a + b, i)
    decreases |a + b| - i
  {
    if i < |a + b| {
      if i >= |a| { PlainAt(b, 0, i - |a|); }
      PlainAppend(a, b, i + 1);
    }
  }

  /** Longer text, put together. */
  function Both(a: Words, b: Words): Words {
    PlainAppend(a, b, 0);
    a + b
  }

  /**
   SQL text as it is put together. A placeholder is empty in compiled text and holds its value in bound text.
   Nothing depends on how the pieces are grouped: Tokens is the text itself.
   */
  datatype Sql =
    | Empty
    | Word(text: Words)
    | Quoted(literal: Quotable)
    | Hole(value: Option<Value>)
    | Connective(any: bool)
    | Paren(inner: Sql)
    | Cat(first: Sql, second: Sql)
  {
    function W(text: Words): Sql { Cat(this, Word(text)) }
    function S(literal: Quotable): Sql { Cat(this, Quoted(literal)) }
    function P(inner: Sql): Sql { Cat(this, Paren(inner)) }
    function K(any: bool): Sql { Cat(this, Connective(any)) }
    function Then(next: Sql): Sql { Cat(this, next) }
  }

  function H(v: Value): Sql { Hole(Some(v)) }

  function Q(): Sql { Hole(None) }

  /** Bound text with every value taken out. */
  function Erase(sql: Sql): Sql {
    match sql
    case Hole(_) => Hole(None)
    case Paren(inner) => Paren(Erase(inner))
    case Cat(first, second) => Cat(Erase(first), Erase(second))
    case _ => sql
  }

  /** The argument list after the values of a text were pushed onto it from left to right. */
  function Push(args: seq<Value>, sql: Sql): seq<Value>
    decreases sql
  {
    match sql
    case Hole(Some(v)) => args + [v]
    case Paren(inner) => Push(args, inner)
    case Cat(first, second) => Push(Push(args, first), second)
    case _ => args
  }

  function Join(parts: seq<Sql>, any: bool): Sql {
    if parts == [] then Empty
    else if |parts| == 1 then parts[0]
    else Join(parts[..|parts| - 1], any).K(any).Then(parts[|parts| - 1])
  }

  function List(vs: seq<Value>): Sql {
    if vs == [] then Empty
    else if |vs| == 1 then H(vs[0])
    else List(vs[..|vs| - 1]).W(COMMA).Then(H(vs[|vs| - 1]))
  }

  /** The text cut where its Boolean structure shows. */
  datatype Token =
    | Lexeme(text: string) | Literal(literal: string) | Open | Close | And | Or | Mark(value: Option<Value>)

  function Tokens(sql: Sql): seq<Token> {
    match sql
    case Empty => []
    case Word(text) => [Lexeme(text)]
    case Quoted(literal) => [Literal(literal)]
    case Hole(value) => [Mark(value)]
    case Connective(any) => [if any then Or else And]
    case Paren(inner) => [Open] + Tokens(inner) + [Close]
    case Cat(first, second) => Tokens(first) + Tokens(second)
  }

  function PrintToken(t: Token): string {
    match t
    case Lexeme(text) => text
    case Literal(literal) => "'" + literal + "'"
    case Open => "("
    case Close => ")"
    case And => " AND "
    case Or => " OR "
    case Mark(_) => "?"
  }

  /** The characters of a text. */
  function Print(ts: seq<Token>): string {
    if ts == [] then "" else PrintToken(ts[0]) + Print(ts[1..])
  }

  // ---------------------------------------------------------------- values

  function Trunc(x: real): int { if x >= 0.0 then x.Floor else -((-x).Floor) }

  function Scalar(v: Value): Option<(Value, bool)> {
    match v
    case Str(_) => Some((v, false))
    case Num(_, _) => Some((v, true))
    case Bool(b) => Some((Str(if b then "true" else "false"), false))
    case _ => None
  }

  function ItemText(v: Value): Option<Value> {
    match v
    case Str(_) => Some(v)
    case Num(_, text) => Some(Str(text))
    case Bool(b) => Some(Str(if b then "true" else "false"))
    case _ => None
  }

  function ItemTexts(items: seq<Value>): Option<seq<Value>> {
    if items == [] then Some([])
    else
      var first := ItemText(items[0]);
      var rest := ItemTexts(items[1..]);
      if first.None? || rest.None? then None else Some([first.value] + rest.value)
  }

  function ArrayValues(v: Value): Option<seq<Value>> {
    if v.Arr? then ItemTexts(v.items) else None
  }

  function IntValue(v: Value): Option<Value> {
    if v.Num? then Some(Num(Trunc(v.n) as real, v.text)) else None
  }

  // ---------------------------------------------------------------- templates

  // the vocabulary

  const COMMA: Words := ", "
  const IS: Words := " = "
  const IS_NOT: Words := " != "
  const AT_LEAST: Words := " >= "
  const AT_MOST: Words := " <= "
  const EARLIER: Words := " < "
  const LATER: Words := " > "
  const IF: Words := "if"
  const HAS: Words := "has"
  const HAS_KEY: Words := "JSONHas"
  const EXTRACT: Words := "JSONExtract"
  const JSON: Words := "JSON"
  const EXTRACT_RAW: Words := "ExtractRaw"
  const STRING: Words := "String"
  const NOW: Words := "now"
  const ZERO: Words := "0"
  const TO_FLOAT: Words := "toFloat64"
  const OR_NULL: Words := "OrNull"
  const PARSE: Words := "parseDateTime"
  const BEST_EFFORT: Words := "BestEffort"
  const ARRAY_EXISTS: Words := "arrayExists"
  const TO_UUID: Words := "toUUID"
  const ARG_MAX: Words := "argMax"
  const MIN: Words := "min"
  const MAX: Words := "max"
  const UNIQUE: Words := "uniqExact"
  const SELECT: Words := "SELECT "
  const FROM: Words := " FROM "
  const WHERE: Words := " WHERE "
  const AS: Words := " AS "
  const ON: Words := " ON "
  const IN: Words := " IN "
  const NOT_IN: Words := " NOT IN "
  const LEFT_JOIN: Words := " LEFT JOIN "
  const GROUP_BY: Words := " GROUP BY "
  const HAVING: Words := " HAVING "
  const INTERVAL: Words := " - INTERVAL "
  const DAYS: Words := " DAY"
  const STD_ATTRS: Words := "std_attrs"
  const CUSTOM_ATTRS: Words := "custom_attrs"
  const USER_ID: Words := "user_id"
  const FROM_USER: Words := "from_user_id"
  const TO_USER: Words := "to_user_id"
  const MERGED_AT: Words := "merged_at"
  const MERGES: Words := "user_merges"
  const TENANT_ID: Words := "tenant_id"
  const APP_ID: Words := "app_id"
  const EVENTS: Words := "events e"
  const E: Words := "e."
  const M: Words := "m."
  const EVENT_NAME: Words := "event_name"
  const SERVER_TS: Words := "server_ts"
  const INSERT_ID: Words := "insert_id"
  const STATUS: Words := "status"
  const MEMBER: Words := "x -> x"
  const PLATFORM_LIST: Words := "platforms"
  const ONE: Words := "1"
  const OPT_IN: Words := "push_opt_in"
  const OS_GRANTED: Words := "os_permission"
  const GRANTED: Words := "_granted"
  const TOKEN_ACTIVE: Words := "token_active"
  const MERGE_ALIAS: Words := " m"

  // the texts

  function MergeSelectText(): Words { Both(SELECT, Both(FROM_USER, Both(COMMA, ARG_MAX))) }
  function MergePairText(): Words { Both(TO_USER, Both(COMMA, MERGED_AT)) }
  function MergeScopeText(): Words {
    Both(AS, Both(TO_USER, Both(FROM, Both(MERGES, Both(WHERE, Both(TENANT_ID, Both(IS, TO_UUID)))))))
  }
  function MergeAppText(): Words { Both(APP_ID, Both(IS, TO_UUID)) }
  function MergeGroupedText(): Words { Both(GROUP_BY, FROM_USER) }
  function RowIfText(): Words { Both(SELECT, IF) }
  function UnmergedText(): Words { Both(M, Both(TO_USER, Both(IS, TO_UUID))) }
  function MergedUserText(): Words { Both(COMMA, Both(E, Both(USER_ID, Both(COMMA, Both(M, TO_USER))))) }
  function EventsJoinText(): Words { Both(AS, Both(USER_ID, Both(FROM, Both(EVENTS, LEFT_JOIN)))) }
  function EventsScopeText(): Words {
    Both(Both(MERGE_ALIAS, Both(ON, Both(E, Both(USER_ID, Both(IS, Both(M, FROM_USER)))))),
         Both(WHERE, Both(E, Both(TENANT_ID, Both(IS, TO_UUID)))))
  }
  function EventsAppText(): Words { Both(E, Both(APP_ID, Both(IS, TO_UUID))) }
  function EventsNameText(): Words { Both(E, Both(EVENT_NAME, IS)) }
  function SinceText(): Words { Both(E, Both(SERVER_TS, AT_LEAST)) }
  function GroupedText(): Words { Both(GROUP_BY, USER_ID) }
  function CountedText(): Words { Both(HAVING, UNIQUE) }
  function ServerTimeText(): Words { Both(E, SERVER_TS) }
  function UserInText(): Words { Both(USER_ID, IN) }
  function UserNotInText(): Words { Both(USER_ID, NOT_IN) }
  function StdKeyText(): Words { Both(STD_ATTRS, COMMA) }
  function CustomKeyText(): Words { Both(CUSTOM_ATTRS, COMMA) }
  function TextFunction(): Words { Both(EXTRACT, STRING) }
  function RawFunction(): Words { Both(JSON, EXTRACT_RAW) }
  function NumberFunction(): Words { Both(TO_FLOAT, OR_NULL) }
  function TimeFunction(): Words { Both(PARSE, Both(BEST_EFFORT, OR_NULL)) }
  function MemberText(): Words { Both(MEMBER, IN) }
  function PlatformsText(): Words { Both(COMMA, PLATFORM_LIST) }
  function OptInText(): Words { Both(OPT_IN, Both(IS, ONE)) }
  function GrantedText(): Words { Both(OS_GRANTED, Both(GRANTED, Both(IS, ONE))) }
  function ActiveTokenText(): Words { Both(TOKEN_ACTIVE, Both(IS, ONE)) }
  function IsUuidText(): Words { Both(IS, TO_UUID) }
  function NoUser(): Quotable { "00000000-0000-0000-0000-000000000000" }

  /** Text with the given texts at its placeholders; compiled and bound text come from the same templates. */
  function Json3(fn: Words, a: Sql, b: Sql, c: Sql): Sql {
    Word(IF).P(Word(HAS_KEY).P(Word(StdKeyText()).Then(a)).W(COMMA)
               .W(fn).P(Word(StdKeyText()).Then(b)).W(COMMA)
               .W(fn).P(Word(CustomKeyText()).Then(c)))
  }

  function Json1(fn: Words, column: Words, a: Sql): Sql { Word(fn).P(Word(column).W(COMMA).Then(a)) }

  function NumberIs(x: Sql, op: Words, v: Sql): Sql { Word(NumberFunction()).P(x).W(op).Then(v) }

  function TextIs(x: Sql, op: Words, v: Sql): Sql { x.W(op).Then(v) }

  function InList(x: Sql, vs: Sql): Sql { x.W(IN).P(vs) }

  function HasItem(x: Sql, v: Sql): Sql {
    Word(HAS).P(Word(EXTRACT).P(x.W(COMMA).S("Array(String)")).W(COMMA).Then(v))
  }

  function DaysAgo(days: Sql): Sql { Word(NOW).P(Empty).W(INTERVAL).Then(days).W(DAYS) }

  function Parsed(x: Sql): Sql { Word(TimeFunction()).P(x) }

  function PlatformIn(vs: Sql): Sql { Word(ARRAY_EXISTS).P(Word(MemberText()).P(vs).W(PlatformsText())) }

  /** The latest merge target of each customer. */
  function MergeMap(tenant: Sql, app: Sql): Sql {
    Paren(Word(MergeSelectText()).P(Word(MergePairText())).W(MergeScopeText()).P(tenant)
          .K(false).W(MergeAppText()).P(app).W(MergeGroupedText()))
  }

  /** The canonical customers of the events of one name and scope. */
  function EventRows(merges: Sql, tenant: Sql, app: Sql, event: Sql): Sql {
    Word(RowIfText()).P(Word(UnmergedText()).P(Quoted(NoUser())).W(MergedUserText())).W(EventsJoinText()).Then(merges)
    .W(EventsScopeText()).P(tenant).K(false).W(EventsAppText()).P(app).K(false).W(EventsNameText()).Then(event)
  }

  function Recent(rows: Sql, days: Sql): Sql { rows.K(false).W(SinceText()).Then(DaysAgo(days)) }

  function UserIn(verb: Words, rows: Sql): Sql { Word(verb).P(rows.W(GroupedText())) }

  function UserCounts(rows: Sql, op: Words, n: Sql): Sql {
    Word(UserInText()).P(rows.W(GroupedText()).W(CountedText()).P(Word(INSERT_ID)).W(op).Then(n))
  }

  function UserWhen(rows: Sql, extreme: Words, days: Sql): Sql {
    Word(UserInText()).P(rows.W(GroupedText()).W(HAVING).W(extreme).P(Word(ServerTimeText())).W(AT_LEAST)
                         .Then(DaysAgo(days)))
  }

  function ScopeIs(column: Words, v: Sql): Sql { Word(column).W(IsUuidText()).P(v) }

  // ---------------------------------------------------------------- conditions

  function Column(key: string): Words { if key in STD_ATTR_KEYS then STD_ATTRS else CUSTOM_ATTRS }

  /** Promoted keys live in the standard attributes when present there, otherwise in the custom ones. */
  function Json(fn: Words, key: string): Sql {
    if key in PROMOTED then Json3(fn, H(Str(key)), H(Str(key)), H(Str(key))) else Json1(fn, Column(key), H(Str(key)))
  }

  function Text(key: string): Sql { Json(TextFunction(), key) }
  function Raw(key: string): Sql { Json(RawFunction(), key) }

  function CompareText(op: CompareOp): Words {
    match op
    case Eq => IS case Neq => IS_NOT case Gt => LATER case Gte => AT_LEAST case Lt => EARLIER case Lte => AT_MOST
  }

  function CompareSql(key: string, op: Words, value: Value): Option<Sql> {
    match Scalar(value)
    case None => None
    case Some((v, isNum)) => Some(if isNum then NumberIs(Text(key), op, H(v)) else TextIs(Text(key), op, H(v)))
  }

  function InSql(key: string, value: Value): Option<Sql> {
    match ArrayValues(value)
    case None => None
    case Some(vs) => Some(if vs == [] then Word(ZERO) else InList(Text(key), List(vs)))
  }

  function ContainsSql(key: string, value: Value): Option<Sql> {
    match Scalar(value) case None => None case Some((v, _)) => Some(HasItem(Raw(key), H(v)))
  }

  function DaysSql(key: string, op: Words, value: Value): Option<Sql> {
    match IntValue(value) case None => None case Some(days) => Some(TextIs(Parsed(Text(key)), op, DaysAgo(H(days))))
  }

  function DateSql(key: string, op: Words, value: Value): Option<Sql> {
    match Scalar(value) case None => None case Some((v, _)) => Some(TextIs(Parsed(Text(key)), op, Parsed(H(v))))
  }

  function AttributeSql(key: string, op: AttributeOp, value: Value): Option<Sql> {
    if key == "" then None
    else match op
      case Exists => Some(TextIs(Raw(key), IS_NOT, Quoted("")))
      case NotExists => Some(TextIs(Raw(key), IS, Quoted("")))
      case Compare(cmp) => CompareSql(key, CompareText(cmp), value)
      case In => InSql(key, value)
      case Contains => ContainsSql(key, value)
      case InLastDays => DaysSql(key, AT_LEAST, value)
      case NotInLastDays => DaysSql(key, EARLIER, value)
      case Before => DateSql(key, EARLIER, value)
      case After => DateSql(key, LATER, value)
      case OtherAttributeOp => None
  }

  function Reachable(transactional: bool): Sql {
    Paren((if transactional then Empty else Word(OptInText()).K(false))
          .W(GrantedText()).K(false).W(ActiveTokenText()))
  }

  function ChannelSql(op: ChannelOp, value: Value, transactional: bool): Option<Sql> {
    match op
    case PushReachable => Some(Reachable(transactional))
    case TokenPlatformIn =>
      (match ArrayValues(value)
       case None => None
       case Some(vs) =>
         if vs == [] then Some(Word(ZERO))
         else if exists v | v in vs :: !(v.Str? && v.s in PLATFORMS) then None
         else Some(PlatformIn(List(vs))))
    case OtherChannelOp => None
  }

  function Events(at: Scope, event: string): Sql {
    EventRows(MergeMap(H(Str(at.tenant)), H(Str(at.app))), H(Str(at.tenant)), H(Str(at.app)), H(Str(event)))
  }

  /** The events inside the window when there is one. */
  function Windowed(at: Scope, event: string, window: Option<Value>): Sql {
    if window.Some? then Recent(Events(at, event), H(window.value)) else Events(at, event)
  }

  function CountSql(at: Scope, event: string, op: Words, value: Value, window: Option<Value>): Option<Sql> {
    match IntValue(value) case None => None case Some(n) => Some(UserCounts(Windowed(at, event, window), op, H(n)))
  }

  function WhenSql(at: Scope, event: string, extreme: Words, window: Option<Value>): Option<Sql> {
    match window case None => None case Some(days) => Some(UserWhen(Events(at, event), extreme, H(days)))
  }

  function EventSql(at: Scope, event: string, op: EventOp, value: Value, window: Option<Value>): Option<Sql> {
    if event == "" then None
    else match op
      case Performed => Some(UserIn(UserInText(), Windowed(at, event, window)))
      case NotPerformed => Some(UserIn(UserNotInText(), Windowed(at, event, window)))
      case CountGte => CountSql(at, event, AT_LEAST, value, window)
      case CountLte => CountSql(at, event, AT_MOST, value, window)
      case FirstPerformed => WhenSql(at, event, MIN, window)
      case LastPerformed => WhenSql(at, event, MAX, window)
      case OtherEventOp => None
  }

  function ConditionSql(at: Scope, c: Condition): Option<Sql> {
    match c
    case Attribute(key, op, value) => AttributeSql(key, op, value)
    case Event(event, op, value, window) => EventSql(at, event, op, value, window)
    case Channel(op, value) => ChannelSql(op, value, at.transactional)
    case Device => None
    case OtherCondition => None
  }

  // ---------------------------------------------------------------- groups and the whole segment

  function ConditionSqls(at: Scope, cs: seq<Condition>): Option<seq<Sql>> {
    if cs == [] then Some([])
    else
      var first := ConditionSql(at, cs[0]);
      var rest := ConditionSqls(at, cs[1..]);
      if first.None? || rest.None? then None else Some([first.value] + rest.value)
  }

  function GroupSql(at: Scope, g: Group): Option<Sql> {
    if g.op.OtherLogical? || g.conditions == [] then None
    else match ConditionSqls(at, g.conditions)
      case None => None
      case Some(parts) => Some(Paren(Join(parts, g.op.AnyOf?)))
  }

  function GroupSqls(at: Scope, gs: seq<Group>): Option<seq<Sql>> {
    if gs == [] then Some([])
    else
      var first := GroupSql(at, gs[0]);
      var rest := GroupSqls(at, gs[1..]);
      if first.None? || rest.None? then None else Some([first.value] + rest.value)
  }

  function StatusActive(): Sql { Word(Both(STATUS, IS)).S("active") }

  function ScopeSqls(at: Scope): seq<Sql> {
    [ScopeIs(TENANT_ID, H(Str(at.tenant))), ScopeIs(APP_ID, H(Str(at.app))), StatusActive()]
  }

  function SegmentSql(at: Scope, dsl: Segment): Option<Sql> {
    if dsl.version != 1 || dsl.op.OtherLogical? then None
    else match GroupSqls(at, dsl.groups)
      case None => None
      case Some(groups) =>
        Some(Join(ScopeSqls(at) + if groups == [] then [] else [Paren(Join(groups, dsl.op.AnyOf?))], false))
  }

  // ---------------------------------------------------------------- binding

  function EraseTokens(ts: seq<Token>): seq<Token> {
    seq(|ts|, i requires 0 <= i < |ts| => if ts[i].Mark? then Mark(None) else ts[i])
  }

  function Values(ts: seq<Token>): seq<Value> {
    if ts == [] then []
    else (if ts[0].Mark? && ts[0].value.Some? then [ts[0].value.value] else []) + Values(ts[1..])
  }

  /** The text with its placeholders filled, from the left, by the given values in order. */
  function Bind(ts: seq<Token>, args: seq<Value>): seq<Token> {
    if ts == [] then []
    else if ts[0].Mark? && args != [] then [Mark(Some(args[0]))] + Bind(ts[1..], args[1..])
    else [ts[0]] + Bind(ts[1..], args)
  }

  predicate FullyBound(ts: seq<Token>) {
    forall t | t in ts :: t.Mark? ==> t.value.Some?
  }

  /** Taking the values out and binding them back in order is the identity. */
  lemma {:induction false} BindInvertsErase(ts: seq<Token>)
    requires FullyBound(ts)
    ensures Bind(EraseTokens(ts), Values(ts)) == ts
  {
    if ts != [] {
      assert ts[0] in ts;
      assert forall t | t in ts[1..] :: t in ts;
      BindInvertsErase(ts[1..]);
      assert EraseTokens(ts)[1..] == EraseTokens(ts[1..]);
      if ts[0].Mark? {
        assert Values(ts)[1..] == Values(ts[1..]);
      } else {
        assert Values(ts) == Values(ts[1..]);
      }
      assert ts == [ts[0]] + ts[1..];
    }
  }

  lemma {:induction false} ValuesAppend(a: seq<Token>, b: seq<Token>)
    ensures Values(a + b) == Values(a) + Values(b)
  {
    if a == [] {
      assert a + b == b;
    } else {
      var rest := a[1..];
      assert a + b == [a[0]] + (rest + b);
      ValuesAppend(rest, b);
    }
  }

  lemma EraseAppends(a: seq<Token>, b: seq<Token>)
    ensures EraseTokens(a + b) == EraseTokens(a) + EraseTokens(b)
  {}

  lemma {:induction false} TokensErase(sql: Sql)
    ensures Tokens(Erase(sql)) == EraseTokens(Tokens(sql))
  {
    match sql {
      case Paren(inner) =>
        TokensErase(inner);
        EraseAppends([Open], Tokens(inner));
        EraseAppends([Open] + Tokens(inner), [Close]);
        assert EraseTokens([Open]) == [Open] && EraseTokens([Close]) == [Close];
      case Cat(first, second) =>
        TokensErase(first);
        TokensErase(second);
        hide EraseTokens;
        EraseAppends(Tokens(first), Tokens(second));
      case _ =>
    }
  }

  lemma NoValue()
    ensures Values([]) == []
  {}

  lemma OneValue(t: Token)
    ensures Values([t]) == if t.Mark? && t.value.Some? then [t.value.value] else []
  {}

  lemma {:induction false} PushIsValues(args: seq<Value>, sql: Sql)
    ensures Push(args, sql) == args + Values(Tokens(sql))
    decreases sql
  {
    hide Values;
    match sql {
      case Paren(inner) =>
        PushIsValues(args, inner);
        OneValue(Open);
        OneValue(Close);
        ValuesAppend([Open], Tokens(inner));
        ValuesAppend([Open] + Tokens(inner), [Close]);
        assert Values([Open] + Tokens(inner) + [Close]) == Values(Tokens(inner));
      case Cat(first, second) =>
        PushIsValues(args, first);
        PushIsValues(Push(args, first), second);
        ValuesAppend(Tokens(first), Tokens(second));
        assert args + Values(Tokens(first)) + Values(Tokens(second))
          == args + (Values(Tokens(first)) + Values(Tokens(second)));
      case Hole(value) => OneValue(Mark(value));
      case Word(text) => OneValue(Lexeme(text));
      case Quoted(literal) => OneValue(Literal(literal));
      case Connective(any) => OneValue(if any then Or else And);
      case Empty => NoValue();
    }
  }
}
