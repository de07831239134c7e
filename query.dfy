/** What the option loop of `main` accumulates, stated on values: the three
    clause strings, the ordered list of named bindings and the flags; then the
    search and limit fragments added after the loop, the two shapes of the
    final query, and the order in which the bindings are applied. */
module Query {
  import opened Wrappers
  import opened Text
  import opened Clause
  import opened Events
  import opened Registry

  /** One option as getopt returns it; `optarg` is ignored by the options that take none. */
  datatype Arg = Arg(flag: char, optarg: string)

  /** A named parameter: bound as text when `text` is present, else as the integer `value`. */
  datatype Bind = Bind(param: string, text: Option<string>, value: int)

  /** The state the option loop builds up. */
  datatype Clauses = Clauses(select: string, from: string, where: string, binds: seq<Bind>,
                             sort: bool, group: bool, limit: Option<string>,
                             shell: bool, path: Option<string>, format: Format, verbose: bool)

  /** Every clause fits its buffer with its terminating NUL. */
  predicate Fits(c: Clauses) {
    |c.select| < QueryCap && |c.from| < QueryCap && |c.where| < QueryCap
  }

  // The SQL fragments, as the SQL(...) macro spells them (their meaning is
  // opaque to this model), written out in short pieces.
  const InitSelect: string := "SELECT " + InitColumns
  const InitColumns: string :=
    "events.event, " + "contexts.network, " + "contexts.name " + "AS context, "
    + "CASE WHEN " + ":local THEN "
    + "strftime( " + "coalesce(" + ":format, " + "'%Y-%m-%dT" + "%H:%M:%S'), "
    + "events.time, " + "'unixepoch', " + "'localtime' " + ") "
    + "ELSE "
    + "strftime( " + "coalesce(" + ":format, " + "'%Y-%m-%dT" + "%H:%M:%SZ'), "
    + "events.time, " + "'unixepoch' " + ") "
    + "END AS time, " + "events.type, "
    + "names.nick, " + "names.user, " + "names.host, " + "events.target,"
  const InitFrom: string := "FROM events " + "JOIN contexts " + "USING (context) " + "JOIN names " + "USING (name)"
  const InitWhere: string := "WHERE true"

  const DateSql: string :=
    "AND " + "events.time >= " + "strftime('%s', " + ":date, " + "'start of day') "
    + "AND " + "events.time " + "< strftime('%s', " + ":date, " + "'start of day', " + "'+1 day')"
  const NetworkSql: string := "AND " + "contexts.network " + "= :network"
  const TargetSql: string := "AND " + "events.target " + "= :target"
  const AfterSql: string := "AND " + "events.time >= " + "strftime('%s', " + ":after)"
  const BeforeSql: string := "AND " + "events.time < " + "strftime('%s', " + ":before)"
  const ContextSql: string := "AND " + "contexts.name " + "= :context"
  const HostSql: string := "AND " + "names.host " + "= :host"
  const RegexpSql: string := "AND " + "events.message " + "REGEXP :regexp"
  const NickSql: string := "AND " + "names.nick " + "= :nick"
  const QuerySql: string := "AND " + "contexts.query " + "= :query"
  const TypeSql: string := "AND " + "events.type " + "= :type"
  const UserSql: string := "AND " + "names.user " + "= :user"

  const HighlightSql: string := "highlight(" + "search, 6, " + ":open, " + ":close)"
  const SearchJoinSql: string := "JOIN search " + "ON search.rowid " + "= events.event"
  const MatchSql: string := "AND " + "search MATCH " + ":search"
  const MessageSql: string := "events.message"
  const LimitSql: string := "ORDER BY " + "time DESC, " + "event DESC " + "LIMIT :limit"

  const Initial: Clauses :=
    Clauses(InitSelect, InitFrom, InitWhere, [], false, false, None, false, None, Plain, false)

  /** A filter: one where fragment and one binding. */
  function Filter(c: Clauses, sql: string, b: Bind): (r: Clauses)
    requires Fits(c)
    ensures Fits(r)
    ensures StartsWith(r.where, c.where)
  {
    c.(where := Appended(c.where, sql), binds := c.binds + [b])
  }

  function TextBind(param: string, text: string): Bind {
    Bind(param, Some(text), 0)
  }

  /** What one case of the option loop's switch does. */
  datatype Action =
    | AddFilter(sql: string, bind: Bind)    // a where fragment and the binding for its parameter
    | AddBind(bind: Bind)                   // a binding with no fragment of its own
    | AddWhere(sql: string)                 // "AND" and then raw SQL
    | SetShell
    | SetPath(path: string)
    | SetFormat(format: Format)
    | SetGroup
    | SetLimit(limit: string)
    | SetSort
    | SetVerbose
    | Reject(error: UsageError)

  /** The case of the switch an option selects. */
  function Decode(names: seq<string>, arg: Arg): Action
    requires TypeTable(names)
  {
    match arg.flag
    case 'D' => AddFilter(DateSql, TextBind(":date", arg.optarg))
    case 'F' => AddBind(TextBind(":format", arg.optarg))
    case 'L' => AddBind(Bind(":local", None, 1))
    case 'N' => AddFilter(NetworkSql, TextBind(":network", arg.optarg))
    case 'S' => SetShell
    case 'T' => AddFilter(TargetSql, TextBind(":target", arg.optarg))
    case 'a' => AddFilter(AfterSql, TextBind(":after", arg.optarg))
    case 'b' => AddFilter(BeforeSql, TextBind(":before", arg.optarg))
    case 'c' => AddFilter(ContextSql, TextBind(":context", arg.optarg))
    case 'd' => SetPath(arg.optarg)
    case 'f' =>
      (match LookupFormat(arg.optarg)
       case Ok(f) => SetFormat(f)
       case Err(e) => Reject(e))
    case 'g' => SetGroup
    case 'h' => AddFilter(HostSql, TextBind(":host", arg.optarg))
    case 'l' => SetLimit(arg.optarg)
    case 'm' => AddFilter(RegexpSql, TextBind(":regexp", arg.optarg))
    case 'n' => AddFilter(NickSql, TextBind(":nick", arg.optarg))
    case 'p' => AddFilter(QuerySql, Bind(":query", None, 0))
    case 'q' => AddFilter(QuerySql, Bind(":query", None, 1))
    case 's' => SetSort
    case 't' =>
      (match LookupType(names, arg.optarg)
       case Ok(t) => AddFilter(TypeSql, Bind(":type", None, Code(t)))
       case Err(e) => Reject(e))
    case 'u' => AddFilter(UserSql, TextBind(":user", arg.optarg))
    case 'v' => SetVerbose
    case 'w' => AddWhere(arg.optarg)
    case _ => Reject(UnknownOption(arg.flag))
  }

  /** The effect of one case of the switch on the clauses. */
  function Apply(c: Clauses, a: Action): (r: Result<Clauses, UsageError>)
    requires Fits(c)
    ensures r.Ok? ==> Fits(r.value)
  {
    match a
    case AddFilter(sql, b) => Ok(Filter(c, sql, b))
    case AddBind(b) => Ok(c.(binds := c.binds + [b]))
    case AddWhere(sql) => Ok(c.(where := Appended(Appended(c.where, "AND"), sql)))
    case SetShell => Ok(c.(shell := true))
    case SetPath(p) => Ok(c.(path := Some(p)))
    case SetFormat(f) => Ok(c.(format := f))
    case SetGroup => Ok(c.(group := true, sort := true))
    case SetLimit(l) => Ok(c.(limit := Some(l), sort := true))
    case SetSort => Ok(c.(sort := true))
    case SetVerbose => Ok(c.(verbose := true))
    case Reject(e) => Err(e)
  }

  /** One pass of the option loop's switch. */
  function Step(names: seq<string>, c: Clauses, arg: Arg): (r: Result<Clauses, UsageError>)
    requires TypeTable(names) && Fits(c)
    ensures r.Ok? ==> Fits(r.value)
  {
    Apply(c, Decode(names, arg))
  }

  /** The whole option loop; the first rejected option ends it. */
  function Parse(names: seq<string>, c: Clauses, opts: seq<Arg>): (r: Result<Clauses, UsageError>)
    requires TypeTable(names) && Fits(c)
    ensures r.Ok? ==> Fits(r.value)
    decreases |opts|
  {
    if opts == [] then Ok(c)
    else
      match Step(names, c, opts[0])
      case Err(e) => Err(e)
      case Ok(c') => Parse(names, c', opts[1..])
  }

  /** After the loop: a search phrase adds the highlight column, the join and
      the match, and three text bindings (the highlight delimiters are bound
      to "" because they must not be left NULL); otherwise the plain message
      column. Then a limit adds its clause and binding last. */
  function Finish(c: Clauses, operands: seq<string>): (r: Clauses)
    requires Fits(c)
    ensures Fits(r)
  {
    var c1 :=
      if |operands| > 0 then
        c.(select := Appended(c.select, HighlightSql),
           from := Appended(c.from, SearchJoinSql),
           where := Appended(c.where, MatchSql),
           binds := c.binds + [TextBind(":search", operands[0]), TextBind(":open", ""), TextBind(":close", "")])
      else
        c.(select := Appended(c.select, MessageSql));
    if c1.limit.Some? then
      c1.(where := Appended(c1.where, LimitSql), binds := c1.binds + [TextBind(":limit", c1.limit.value)])
    else c1
  }

  /** The clauses the command line builds, or the usage error it is rejected with. */
  function Build(names: seq<string>, opts: seq<Arg>, operands: seq<string>): Result<Clauses, UsageError>
    requires TypeTable(names)
  {
    match Parse(names, Initial, opts)
    case Err(e) => Err(e)
    case Ok(c) => Ok(Finish(c, operands))
  }

  /** The select, from and where lists, space-separated. */
  function Statement(c: Clauses): string {
    c.select + (" " + c.from + " " + c.where)
  }

  /** What follows the statement in the sorted form. */
  function OrderBy(group: bool): string {
    ") SELECT * FROM results " + ("ORDER BY " + (if group then "network, context," else "") + " time, event;")
  }

  /** The ordering of the grouped form: "ORDER BY network, context, time, event;". */
  const GroupedOrdering: string := "ORDER BY " + "network, context," + " time, event;"

  /** The statement text: the three clauses as they are, or wrapped in a
      common table expression that orders the result set. */
  function Assemble(c: Clauses): string {
    if c.sort then "WITH results AS (" + (Statement(c) + OrderBy(c.group))
    else Statement(c) + ";"
  }

  /** The call that applies one binding to the prepared statement. */
  datatype BindCall = BindText(param: string, text: string) | BindInt(param: string, value: int)

  function Bound(b: Bind): BindCall {
    if b.text.Some? then BindText(b.param, b.text.value) else BindInt(b.param, b.value)
  }

  /** The bind calls for a list of bindings, in order. */
  function BindAll(binds: seq<Bind>): seq<BindCall> {
    seq(|binds|, i requires 0 <= i < |binds| => Bound(binds[i]))
  }

  /** What the query prints: each row with NULLs normalised and formatted. */
  function Output(format: Format, group: bool, rows: seq<Row>): string {
    if rows == [] then ""
    else Output(format, group, rows[..|rows| - 1]) + Render(format, group, Normalize(rows[|rows| - 1]))
  }

  /** How a run ends: a usage error (EX_USAGE), the sqlite3 shell on the
      database, or the query with its bindings and the formatted rows, with a
      warning when stepping the statement failed before the last row. */
  datatype Exit =
    | Usage(error: UsageError)
    | Shell(path: Option<string>)
    | Done(query: string, calls: seq<BindCall>, verbose: bool, output: string, warning: bool)

  /** A whole run on a database that yields `rows` and then stops, failing
      with an error exactly when `failed`. */
  function Run(names: seq<string>, opts: seq<Arg>, operands: seq<string>, rows: seq<Row>, failed: bool): Exit
    requires TypeTable(names)
  {
    match Build(names, opts, operands)
    case Err(e) => Usage(e)
    case Ok(c) =>
      if c.shell then Shell(c.path)
      else Done(Assemble(c), BindAll(c.binds), c.verbose, Output(c.format, c.group, rows), failed)
  }

  // ---------------------------------------------------------------------------
  // Reference descriptions of what the option loop accumulates

  /** The bindings one option pushes: one for every filter and for -F and -L,
      none for the others. */
  function OptionBinds(names: seq<string>, arg: Arg): seq<Bind>
    requires TypeTable(names)
  {
    match arg.flag
    case 'D' => [TextBind(":date", arg.optarg)]
    case 'F' => [TextBind(":format", arg.optarg)]
    case 'L' => [Bind(":local", None, 1)]
    case 'N' => [TextBind(":network", arg.optarg)]
    case 'T' => [TextBind(":target", arg.optarg)]
    case 'a' => [TextBind(":after", arg.optarg)]
    case 'b' => [TextBind(":before", arg.optarg)]
    case 'c' => [TextBind(":context", arg.optarg)]
    case 'h' => [TextBind(":host", arg.optarg)]
    case 'm' => [TextBind(":regexp", arg.optarg)]
    case 'n' => [TextBind(":nick", arg.optarg)]
    case 'p' => [Bind(":query", None, 0)]
    case 'q' => [Bind(":query", None, 1)]
    case 't' => if arg.optarg in names then [Bind(":type", None, Code(LookupType(names, arg.optarg).value))] else []
    case 'u' => [TextBind(":user", arg.optarg)]
    case _ => []
  }

  /** The bindings a list of options pushes, in encounter order. */
  function Pushed(names: seq<string>, opts: seq<Arg>): seq<Bind>
    requires TypeTable(names)
  {
    if opts == [] then [] else OptionBinds(names, opts[0]) + Pushed(names, opts[1..])
  }

  /** The where fragments one option appends: its condition for every
      filter, "AND" and the raw text for -w, none for the others. */
  function OptionFragments(names: seq<string>, arg: Arg): seq<string>
    requires TypeTable(names)
  {
    match arg.flag
    case 'D' => [DateSql]
    case 'N' => [NetworkSql]
    case 'T' => [TargetSql]
    case 'a' => [AfterSql]
    case 'b' => [BeforeSql]
    case 'c' => [ContextSql]
    case 'h' => [HostSql]
    case 'm' => [RegexpSql]
    case 'n' => [NickSql]
    case 'p' => [QuerySql]
    case 'q' => [QuerySql]
    case 't' => if arg.optarg in names then [TypeSql] else []
    case 'u' => [UserSql]
    case 'w' => ["AND", arg.optarg]
    case _ => []
  }

  /** The where fragments a list of options appends, in encounter order. */
  function Fragments(names: seq<string>, opts: seq<Arg>): seq<string>
    requires TypeTable(names)
  {
    if opts == [] then [] else OptionFragments(names, opts[0]) + Fragments(names, opts[1..])
  }

  /** Some option has one of the given flags. */
  predicate Seen(opts: seq<Arg>, flags: string) {
    exists i :: 0 <= i < |opts| && opts[i].flag in flags
  }

  /** The argument of the last option with the given flag, or `d` when there is none. */
  function LastArg(opts: seq<Arg>, flag: char, d: Option<string>): Option<string> {
    if opts == [] then d
    else if opts[|opts| - 1].flag == flag then Some(opts[|opts| - 1].optarg)
    else LastArg(opts[..|opts| - 1], flag, d)
  }

  /** The options getopt reports that the switch has a case for. */
  const Handled: set<char> := {'D', 'F', 'L', 'N', 'S', 'T', 'a', 'b', 'c', 'd', 'f', 'g', 'h', 'l', 'm', 'n', 'p', 'q', 's', 't', 'u', 'v', 'w'}

  /** An option the loop rejects: an unknown flag, an unknown format or an unknown type. */
  predicate Rejected(names: seq<string>, arg: Arg) {
    || arg.flag !in Handled
    || (arg.flag == 'f' && LookupFormat(arg.optarg).Err?)
    || (arg.flag == 't' && arg.optarg !in names)
  }

  /** The usage error a rejected option causes. */
  function Reason(arg: Arg): UsageError {
    if arg.flag == 'f' then NoSuchFormat(arg.optarg)
    else if arg.flag == 't' then NoSuchType(arg.optarg)
    else UnknownOption(arg.flag)
  }
}
