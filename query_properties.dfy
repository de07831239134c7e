/** What the option loop, the search and limit additions and the query
    assembler promise about the query and its bindings. */
module QueryProperties {
  import opened Wrappers
  import opened Text
  import opened Clause
  import opened Events
  import opened Registry
  import opened Query

  // ---------------------------------------------------------------------------
  // One option

  /** Every filter and -F and -L push one binding and nothing else pushes
      any; the text filters and -F bind their argument as text, and -t binds
      the code of the type it names, as an integer. */
  lemma OptionBindsShape(names: seq<string>, arg: Arg)
    requires TypeTable(names)
    ensures var r := OptionBinds(names, arg);
      && |r| <= 1
      && (|r| == 1 <==> arg.flag in "DFLNTabchmnpqu" || (arg.flag == 't' && arg.optarg in names))
      && (arg.flag in "DFNTabchmnu" ==> r == [Bind(r[0].param, Some(arg.optarg), 0)])
      && (arg.flag == 't' && |r| == 1
          ==> r[0].param == ":type" && r[0].text == None
              && 0 <= r[0].value < |names| && names[r[0].value] == arg.optarg)
  {
  }

  /** The bindings one case of the switch pushes. */
  function ActionBinds(a: Action): seq<Bind> {
    if a.AddFilter? || a.AddBind? then [a.bind] else []
  }

  /** What each case of the switch does to the clauses: only a filter, a
      binding or -w changes what is bound or matched; select and from are
      left alone; where only ever grows; only -g, -l and -s sort; each of
      the shell, path, format and verbose settings changes only by its own
      case. */
  lemma ApplyFacts(c: Clauses, a: Action)
    requires Fits(c)
    ensures Apply(c, a).Err? <==> a.Reject?
    ensures a.Reject? ==> Apply(c, a).error == a.error
    ensures Apply(c, a).Ok? ==>
      var c' := Apply(c, a).value;
      && c'.binds == c.binds + ActionBinds(a)
      && c'.select == c.select && c'.from == c.from
      && StartsWith(c'.where, c.where)
      && c'.sort == (c.sort || a.SetSort? || a.SetGroup? || a.SetLimit?)
      && c'.group == (c.group || a.SetGroup?)
      && c'.limit == (if a.SetLimit? then Some(a.limit) else c.limit)
      && c'.path == (if a.SetPath? then Some(a.path) else c.path)
      && c'.shell == (c.shell || a.SetShell?)
      && c'.verbose == (c.verbose || a.SetVerbose?)
      && c'.format == (if a.SetFormat? then a.format else c.format)
  {
    if a.AddWhere? {
      var w1 := Appended(c.where, "AND");
      var w' := Appended(w1, a.sql);
      assert w1[..|c.where|] == c.where;
      assert w'[..|w1|] == w1;
      assert w'[..|c.where|] == w1[..|c.where|];
    } else if !a.AddFilter? && !a.Reject? {
      assert Apply(c, a).value.where[..|c.where|] == c.where;
    }
    if a.AddBind? || a.AddFilter? {
      assert Apply(c, a).value.binds == c.binds + [a.bind];
    } else if !a.Reject? {
      assert Apply(c, a).value.binds == c.binds + [];
    }
  }

  /** The case of the switch an option selects pushes the bindings of the
      reference description. */
  lemma DecodeBinds(names: seq<string>, arg: Arg)
    requires TypeTable(names)
    ensures ActionBinds(Decode(names, arg)) == OptionBinds(names, arg)
  {
  }

  /** Only -g, -l and -s sort, only -g groups, only -l limits and only -d
      names the database, each with its argument. */
  lemma DecodeFlags(names: seq<string>, arg: Arg)
    requires TypeTable(names)
    ensures var a := Decode(names, arg);
      && (a.SetSort? || a.SetGroup? || a.SetLimit? <==> arg.flag in "gls")
      && (a.SetGroup? <==> arg.flag == 'g')
      && (a.SetLimit? <==> arg.flag == 'l') && (a.SetLimit? ==> a.limit == arg.optarg)
      && (a.SetPath? <==> arg.flag == 'd') && (a.SetPath? ==> a.path == arg.optarg)
  {
  }

  /** Only -S hands off to the shell, only -v is verbose, and only -f sets
      the format, to the one its argument names. */
  lemma DecodeModes(names: seq<string>, arg: Arg)
    requires TypeTable(names)
    ensures var a := Decode(names, arg);
      && (a.SetShell? <==> arg.flag == 'S')
      && (a.SetVerbose? <==> arg.flag == 'v')
      && (a.SetFormat? <==> arg.flag == 'f' && LookupFormat(arg.optarg).Ok?)
      && (a.SetFormat? ==> LookupFormat(arg.optarg) == Ok(a.format))
  {
  }

  /** An option is refused exactly when it is unknown, names no format or
      names no type, with the error that says which. */
  lemma DecodeRejects(names: seq<string>, arg: Arg)
    requires TypeTable(names)
    ensures Decode(names, arg).Reject? <==> Rejected(names, arg)
    ensures Decode(names, arg).Reject? ==> Decode(names, arg).error == Reason(arg)
  {
  }

  /** An accepted option pushes exactly its own bindings, leaves the select
      and from lists alone, only ever extends the where list, and sets the
      sort, group, limit and path as its flag says; an option is refused
      exactly when it is unknown, names no format or names no type. */
  lemma StepFacts(names: seq<string>, c: Clauses, arg: Arg)
    requires TypeTable(names) && Fits(c)
    ensures Step(names, c, arg).Err? <==> Rejected(names, arg)
    ensures Step(names, c, arg).Err? ==> Step(names, c, arg).error == Reason(arg)
    ensures Step(names, c, arg).Ok? ==>
      var c' := Step(names, c, arg).value;
      && c'.binds == c.binds + OptionBinds(names, arg)
      && c'.select == c.select && c'.from == c.from
      && StartsWith(c'.where, c.where)
      && c'.where == AppendAll(c.where, OptionFragments(names, arg))
      && c'.sort == (c.sort || arg.flag in "gls")
      && c'.group == (c.group || arg.flag == 'g')
      && c'.limit == (if arg.flag == 'l' then Some(arg.optarg) else c.limit)
      && c'.path == (if arg.flag == 'd' then Some(arg.optarg) else c.path)
      && c'.shell == (c.shell || arg.flag == 'S')
      && c'.verbose == (c.verbose || arg.flag == 'v')
      && (if arg.flag == 'f' then LookupFormat(arg.optarg) == Ok(c'.format) else c'.format == c.format)
  {
    DecodeBinds(names, arg);
    DecodeFlags(names, arg);
    DecodeRejects(names, arg);
    if Step(names, c, arg).Ok? {
      StepWhere(names, c, arg);
      StepModes(names, c, arg);
    }
    ApplyFacts(c, Decode(names, arg));
  }

  /** One accepted option hands off to the shell only for -S, is verbose
      only for -v, and sets the format only for -f, to the one it names. */
  lemma StepModes(names: seq<string>, c: Clauses, arg: Arg)
    requires TypeTable(names) && Fits(c) && Step(names, c, arg).Ok?
    ensures var c' := Step(names, c, arg).value;
      && c'.shell == (c.shell || arg.flag == 'S')
      && c'.verbose == (c.verbose || arg.flag == 'v')
      && (if arg.flag == 'f' then LookupFormat(arg.optarg) == Ok(c'.format) else c'.format == c.format)
  {
    DecodeModes(names, arg);
    DecodeRejects(names, arg);
    ApplyFacts(c, Decode(names, arg));
  }

  /** One accepted option sets sort, group, limit and path as its flag says. */
  lemma StepFlags(names: seq<string>, c: Clauses, arg: Arg)
    requires TypeTable(names) && Fits(c) && Step(names, c, arg).Ok?
    ensures var c' := Step(names, c, arg).value;
      && c'.sort == (c.sort || arg.flag in "gls")
      && c'.group == (c.group || arg.flag == 'g')
      && c'.limit == (if arg.flag == 'l' then Some(arg.optarg) else c.limit)
      && c'.path == (if arg.flag == 'd' then Some(arg.optarg) else c.path)
  {
    StepFacts(names, c, arg);
  }

  /** The where fragments one case of the switch appends. */
  function ActionFragments(a: Action): seq<string> {
    if a.AddFilter? then [a.sql] else if a.AddWhere? then ["AND", a.sql] else []
  }

  lemma AppendOne(query: string, sql: string)
    requires |query| < QueryCap
    ensures AppendAll(query, [sql]) == Appended(query, sql)
  {
    assert [sql][1..] == [];
  }

  /** A case of the switch appends exactly its own fragments to the where list. */
  lemma ApplyWhere(c: Clauses, a: Action)
    requires Fits(c) && Apply(c, a).Ok?
    ensures Apply(c, a).value.where == AppendAll(c.where, ActionFragments(a))
  {
    if a.AddFilter? {
      AppendOne(c.where, a.sql);
    } else if a.AddWhere? {
      var w1 := Appended(c.where, "AND");
      AppendOne(w1, a.sql);
      assert ["AND", a.sql][1..] == [a.sql];
    }
  }

  /** The case an option selects appends the option's reference fragments. */
  lemma DecodeFragments(names: seq<string>, arg: Arg)
    requires TypeTable(names)
    ensures ActionFragments(Decode(names, arg)) == OptionFragments(names, arg)
  {
  }

  /** One accepted option appends exactly its reference fragments to the where list. */
  lemma StepWhere(names: seq<string>, c: Clauses, arg: Arg)
    requires TypeTable(names) && Fits(c) && Step(names, c, arg).Ok?
    ensures Step(names, c, arg).value.where == AppendAll(c.where, OptionFragments(names, arg))
  {
    DecodeFragments(names, arg);
    ApplyWhere(c, Decode(names, arg));
  }

  /** Each filter appends one fragment and pushes one binding; -F and -L push
      a binding with no fragment; -w appends "AND" and its text and pushes no
      binding; every other option appends and pushes nothing. */
  lemma FragmentsPairBinds(names: seq<string>, arg: Arg)
    requires TypeTable(names)
    ensures var f, b := OptionFragments(names, arg), OptionBinds(names, arg);
      && (|f| == 1 <==> |b| == 1 && arg.flag != 'F' && arg.flag != 'L')
      && (arg.flag == 'w' <==> |f| == 2)
      && (arg.flag == 'w' ==> f == ["AND", arg.optarg] && b == [])
      && |f| <= 2
  {
  }

  // ---------------------------------------------------------------------------
  // The option loop

  lemma SeenCons(opts: seq<Arg>, flags: string)
    requires opts != []
    ensures Seen(opts, flags) <==> opts[0].flag in flags || Seen(opts[1..], flags)
  {
    if Seen(opts, flags) && opts[0].flag !in flags {
      var i :| 0 <= i < |opts| && opts[i].flag in flags;
      assert opts[1..][i - 1] == opts[i];
    }
    if Seen(opts[1..], flags) {
      var i :| 0 <= i < |opts| - 1 && opts[1..][i].flag in flags;
      assert opts[i + 1] == opts[1..][i];
    }
  }

  /** After the loop the bindings are the initial ones followed by each
      option's own, in the order the options came. */
  lemma {:induction false} ParseBinds(names: seq<string>, c: Clauses, opts: seq<Arg>)
    requires TypeTable(names) && Fits(c) && Parse(names, c, opts).Ok?
    ensures Parse(names, c, opts).value.binds == c.binds + Pushed(names, opts)
    decreases |opts|
  {
    if opts == [] {
      assert c.binds + [] == c.binds;
    } else {
      var c1 := Step(names, c, opts[0]).value;
      StepFacts(names, c, opts[0]);
      ParseBinds(names, c1, opts[1..]);
      PushedCons(names, opts);
      Reassociate(c.binds, OptionBinds(names, opts[0]), Pushed(names, opts[1..]), c1.binds,
                  Parse(names, c, opts).value.binds);
    }
  }

  lemma PushedCons(names: seq<string>, opts: seq<Arg>)
    requires TypeTable(names) && opts != []
    ensures Pushed(names, opts) == OptionBinds(names, opts[0]) + Pushed(names, opts[1..])
  {
  }

  lemma Reassociate<T>(a: seq<T>, b: seq<T>, c: seq<T>, ab: seq<T>, abc: seq<T>)
    requires ab == a + b && abc == ab + c
    ensures abc == a + (b + c)
  {
  }

  /** The loop leaves the select and from lists alone and only ever extends
      the where list. */
  lemma {:induction false} ParseClauses(names: seq<string>, c: Clauses, opts: seq<Arg>)
    requires TypeTable(names) && Fits(c) && Parse(names, c, opts).Ok?
    ensures var c' := Parse(names, c, opts).value;
      && c'.select == c.select && c'.from == c.from
      && StartsWith(c'.where, c.where)
    decreases |opts|
  {
    if opts == [] {
      assert c.where[..|c.where|] == c.where;
    } else {
      var c1 := Step(names, c, opts[0]).value;
      StepFacts(names, c, opts[0]);
      ParseClauses(names, c1, opts[1..]);
      var w' := Parse(names, c, opts).value.where;
      assert w'[..|c1.where|] == c1.where;
      assert c1.where[..|c.where|] == c.where;
      assert w'[..|c.where|] == c1.where[..|c.where|];
    }
  }

  /** Appending a concatenation is appending one list and then the other. */
  lemma {:induction false} AppendAllConcat(query: string, a: seq<string>, b: seq<string>)
    requires |query| < QueryCap
    ensures AppendAll(query, a + b) == AppendAll(AppendAll(query, a), b)
    decreases |a|
  {
    if a == [] {
      assert a + b == b;
    } else {
      assert (a + b)[0] == a[0];
      assert (a + b)[1..] == a[1..] + b;
      AppendAllConcat(Appended(query, a[0]), a[1..], b);
    }
  }

  lemma FragmentsCons(names: seq<string>, opts: seq<Arg>)
    requires TypeTable(names) && opts != []
    ensures Fragments(names, opts) == OptionFragments(names, opts[0]) + Fragments(names, opts[1..])
  {
  }

  /** After the loop the where list is the initial one with every option's
      fragments appended, in the order the options came. */
  lemma {:induction false} ParseWhere(names: seq<string>, c: Clauses, opts: seq<Arg>)
    requires TypeTable(names) && Fits(c) && Parse(names, c, opts).Ok?
    ensures Parse(names, c, opts).value.where == AppendAll(c.where, Fragments(names, opts))
    decreases |opts|
  {
    if opts != [] {
      var c1 := Step(names, c, opts[0]).value;
      StepWhere(names, c, opts[0]);
      ParseWhere(names, c1, opts[1..]);
      FragmentsCons(names, opts);
      AppendAllConcat(c.where, OptionFragments(names, opts[0]), Fragments(names, opts[1..]));
    }
  }

  /** Sort (group) is set after the loop exactly when it was set before or
      some option -g, -l or -s (-g) was given. */
  lemma {:induction false} ParseSort(names: seq<string>, c: Clauses, opts: seq<Arg>)
    requires TypeTable(names) && Fits(c) && Parse(names, c, opts).Ok?
    ensures Parse(names, c, opts).value.sort <==> c.sort || Seen(opts, "gls")
    ensures Parse(names, c, opts).value.group <==> c.group || Seen(opts, "g")
    decreases |opts|
  {
    if opts != [] {
      var c1 := Step(names, c, opts[0]).value;
      StepFlags(names, c, opts[0]);
      ParseSort(names, c1, opts[1..]);
      SeenCons(opts, "gls");
      SeenCons(opts, "g");
    }
  }

  /** The shell hand-off (verbose output) is on after the loop exactly when
      it was on before or some -S (-v) was given. */
  lemma {:induction false} ParseModes(names: seq<string>, c: Clauses, opts: seq<Arg>)
    requires TypeTable(names) && Fits(c) && Parse(names, c, opts).Ok?
    ensures Parse(names, c, opts).value.shell <==> c.shell || Seen(opts, "S")
    ensures Parse(names, c, opts).value.verbose <==> c.verbose || Seen(opts, "v")
    decreases |opts|
  {
    if opts != [] {
      var c1 := Step(names, c, opts[0]).value;
      StepModes(names, c, opts[0]);
      ParseModes(names, c1, opts[1..]);
      SeenCons(opts, "S");
      SeenCons(opts, "v");
    }
  }

  /** The format after the loop is the one the last -f names, or the format
      before the loop when no -f was given. */
  lemma ParseLastFormat(names: seq<string>, c: Clauses, opts: seq<Arg>)
    requires TypeTable(names) && Fits(c) && Parse(names, c, opts).Ok?
    ensures match LastArg(opts, 'f', None)
            case None => Parse(names, c, opts).value.format == c.format
            case Some(n) => LookupFormat(n) == Ok(Parse(names, c, opts).value.format)
  {
    ParseFormatFrom(names, c, opts, None);
  }

  /** ParseLastFormat with the last -f before `opts` as the default `d`,
      which names the format `c` holds. */
  lemma {:induction false} ParseFormatFrom(names: seq<string>, c: Clauses, opts: seq<Arg>, d: Option<string>)
    requires TypeTable(names) && Fits(c) && Parse(names, c, opts).Ok?
    requires d.Some? ==> LookupFormat(d.value) == Ok(c.format)
    ensures match LastArg(opts, 'f', d)
            case None => Parse(names, c, opts).value.format == c.format
            case Some(n) => LookupFormat(n) == Ok(Parse(names, c, opts).value.format)
    decreases |opts|
  {
    if opts != [] {
      var c1 := Step(names, c, opts[0]).value;
      StepModes(names, c, opts[0]);
      var d1 := if opts[0].flag == 'f' then Some(opts[0].optarg) else d;
      ParseFormatFrom(names, c1, opts[1..], d1);
      LastArgCons(opts, 'f', d);
      LastArgDefault(opts[1..], 'f', d1);
    }
  }

  /** With a default there is always a last argument. */
  lemma {:induction false} LastArgDefault(opts: seq<Arg>, flag: char, d: Option<string>)
    ensures d.Some? ==> LastArg(opts, flag, d).Some?
    decreases |opts|
  {
    if opts != [] {
      LastArgDefault(opts[..|opts| - 1], flag, d);
    }
  }

  /** The loop over `opts + [arg]` is the loop over `opts` and then one more step. */
  lemma {:induction false} ParseSnoc(names: seq<string>, c: Clauses, opts: seq<Arg>, arg: Arg)
    requires TypeTable(names) && Fits(c)
    ensures Parse(names, c, opts + [arg])
         == match Parse(names, c, opts)
            case Err(e) => Err(e)
            case Ok(c1) => Step(names, c1, arg)
    decreases |opts|
  {
    if opts == [] {
      assert [] + [arg] == [arg];
      assert [arg][1..] == [];
    } else {
      assert (opts + [arg])[0] == opts[0];
      assert (opts + [arg])[1..] == opts[1..] + [arg];
      if Step(names, c, opts[0]).Ok? {
        ParseSnoc(names, Step(names, c, opts[0]).value, opts[1..], arg);
      }
    }
  }

  /** The limit and the database path come from the last -l and the last -d. */
  lemma {:induction false} ParseLast(names: seq<string>, c: Clauses, opts: seq<Arg>)
    requires TypeTable(names) && Fits(c) && Parse(names, c, opts).Ok?
    ensures Parse(names, c, opts).value.limit == LastArg(opts, 'l', c.limit)
    ensures Parse(names, c, opts).value.path == LastArg(opts, 'd', c.path)
    decreases |opts|
  {
    if opts != [] {
      var c1 := Step(names, c, opts[0]).value;
      StepFlags(names, c, opts[0]);
      ParseLast(names, c1, opts[1..]);
      LastArgCons(opts, 'l', c.limit);
      LastArgCons(opts, 'd', c.path);
    }
  }

  /** The last argument of a flag, read from the front: the first option
      becomes the default for the rest. */
  lemma {:induction false} LastArgCons(opts: seq<Arg>, flag: char, d: Option<string>)
    requires opts != []
    ensures LastArg(opts, flag, d)
         == LastArg(opts[1..], flag, if opts[0].flag == flag then Some(opts[0].optarg) else d)
    decreases |opts|
  {
    if |opts| > 1 {
      var init := opts[..|opts| - 1];
      assert opts[1..][|opts| - 2] == opts[|opts| - 1];
      assert opts[1..][..|opts| - 2] == init[1..];
      assert init[0] == opts[0];
      LastArgCons(init, flag, d);
    }
  }

  /** The loop fails exactly when some option is refused, and then with the
      error of the first refused option. */
  lemma {:induction false} ParseRejects(names: seq<string>, c: Clauses, opts: seq<Arg>)
    requires TypeTable(names) && Fits(c)
    ensures Parse(names, c, opts).Err? <==> exists i :: 0 <= i < |opts| && Rejected(names, opts[i])
    ensures Parse(names, c, opts).Err? ==>
      exists i :: 0 <= i < |opts| && Rejected(names, opts[i])
        && (forall j :: 0 <= j < i ==> !Rejected(names, opts[j]))
        && Parse(names, c, opts).error == Reason(opts[i])
    decreases |opts|
  {
    if opts != [] {
      StepFacts(names, c, opts[0]);
      if Step(names, c, opts[0]).Ok? {
        var c1 := Step(names, c, opts[0]).value;
        ParseRejects(names, c1, opts[1..]);
        if Parse(names, c1, opts[1..]).Err? {
          var i :| 0 <= i < |opts| - 1 && Rejected(names, opts[1..][i])
            && (forall j :: 0 <= j < i ==> !Rejected(names, opts[1..][j]))
            && Parse(names, c1, opts[1..]).error == Reason(opts[1..][i]);
          assert opts[i + 1] == opts[1..][i];
          forall j | 0 <= j < i + 1
            ensures !Rejected(names, opts[j])
          {
            if j > 0 {
              assert opts[j] == opts[1..][j - 1];
            }
          }
        } else {
          forall i | 0 <= i < |opts|
            ensures !Rejected(names, opts[i])
          {
            if i > 0 {
              assert opts[i] == opts[1..][i - 1];
            }
          }
        }
      } else {
        assert Rejected(names, opts[0]);
      }
    }
  }

  // ---------------------------------------------------------------------------
  // The finished clauses

  /** The bindings the search phrase pushes after the loop. */
  function SearchBinds(operands: seq<string>): seq<Bind> {
    if |operands| > 0 then [TextBind(":search", operands[0]), TextBind(":open", ""), TextBind(":close", "")]
    else []
  }

  /** The final bindings: each option's own in encounter order, then the
      search phrase and the two highlight delimiters (never NULL), then the
      limit of the last -l. */
  lemma BuildBinds(names: seq<string>, opts: seq<Arg>, operands: seq<string>)
    requires TypeTable(names) && Build(names, opts, operands).Ok?
    ensures Build(names, opts, operands).value.binds
         == Pushed(names, opts) + SearchBinds(operands)
            + (match LastArg(opts, 'l', None) case Some(l) => [TextBind(":limit", l)] case None => [])
  {
    var c := Parse(names, Initial, opts).value;
    ParseBinds(names, Initial, opts);
    ParseLast(names, Initial, opts);
    LastArgSeen(opts, 'l');
    assert [] + Pushed(names, opts) == Pushed(names, opts);
    assert Pushed(names, opts) + SearchBinds(operands) + []
        == Pushed(names, opts) + SearchBinds(operands);
  }

  /** The finished clauses: the select list is the initial one with the
      highlight column in search mode and the message column otherwise; the
      from list gains the search join in search mode only; the where list is
      the initial one with every option's fragments in order, then the search
      match, then the limit clause when some -l was given. */
  lemma BuildClauses(names: seq<string>, opts: seq<Arg>, operands: seq<string>)
    requires TypeTable(names) && Build(names, opts, operands).Ok?
    ensures var c := Build(names, opts, operands).value;
      && c.select == Appended(InitSelect, if |operands| > 0 then HighlightSql else MessageSql)
      && c.from == (if |operands| > 0 then Appended(InitFrom, SearchJoinSql) else InitFrom)
      && c.where == AppendAll(InitWhere, Fragments(names, opts)
                              + (if |operands| > 0 then [MatchSql] else [])
                              + (if Seen(opts, "l") then [LimitSql] else []))
  {
    var p := Parse(names, Initial, opts).value;
    ParseClauses(names, Initial, opts);
    ParseWhere(names, Initial, opts);
    ParseLast(names, Initial, opts);
    LastArgSeen(opts, 'l');
    var fs := Fragments(names, opts);
    var ms: seq<string> := if |operands| > 0 then [MatchSql] else [];
    var ls: seq<string> := if Seen(opts, "l") then [LimitSql] else [];
    AppendAllConcat(InitWhere, fs, ms);
    AppendAllConcat(InitWhere, fs + ms, ls);
    var w1 := AppendAll(p.where, ms);
    AppendOne(p.where, MatchSql);
    AppendOne(w1, LimitSql);
  }

  /** In search mode the two highlight delimiters are bound, as text, right
      after the phrase, whatever the other options were. */
  lemma SearchDelimiters(names: seq<string>, opts: seq<Arg>, operands: seq<string>)
    requires TypeTable(names) && Build(names, opts, operands).Ok? && |operands| > 0
    ensures var b := Build(names, opts, operands).value.binds; var k := |Pushed(names, opts)|;
      && |b| >= k + 3
      && b[k] == Bind(":search", Some(operands[0]), 0)
      && b[k + 1] == Bind(":open", Some(""), 0)
      && b[k + 2] == Bind(":close", Some(""), 0)
  {
    BuildBinds(names, opts, operands);
  }

  lemma {:induction false} LastArgSeen(opts: seq<Arg>, flag: char)
    ensures LastArg(opts, flag, None).Some? <==> Seen(opts, [flag])
    decreases |opts|
  {
    if opts != [] {
      var init := opts[..|opts| - 1];
      LastArgSeen(init, flag);
      if Seen(opts, [flag]) && opts[|opts| - 1].flag != flag {
        var i :| 0 <= i < |opts| && opts[i].flag in [flag];
        assert init[i] == opts[i];
      }
      if Seen(init, [flag]) {
        var i :| 0 <= i < |init| && init[i].flag in [flag];
        assert opts[i] == init[i];
      }
    }
  }

  /** The finished program hands off to the shell exactly when some -S was
      given, is verbose exactly when some -v was, opens the database the
      last -d names, and formats as the last -f says, plainly when there is
      none. */
  lemma BuildModes(names: seq<string>, opts: seq<Arg>, operands: seq<string>)
    requires TypeTable(names) && Build(names, opts, operands).Ok?
    ensures var c := Build(names, opts, operands).value;
      && (c.shell <==> Seen(opts, "S"))
      && (c.verbose <==> Seen(opts, "v"))
      && c.path == LastArg(opts, 'd', None)
      && match LastArg(opts, 'f', None)
         case None => c.format == Plain
         case Some(n) => LookupFormat(n) == Ok(c.format)
  {
    ParseModes(names, Initial, opts);
    ParseLast(names, Initial, opts);
    ParseLastFormat(names, Initial, opts);
  }

  /** The run hands off to the shell, with the path of the last -d, exactly
      when the command line is accepted and some -S was given; an accepted
      command line without -S runs the query. */
  lemma RunEnding(names: seq<string>, opts: seq<Arg>, operands: seq<string>, rows: seq<Row>, failed: bool)
    requires TypeTable(names)
    ensures var r := Run(names, opts, operands, rows, failed);
      && (r.Usage? <==> Build(names, opts, operands).Err?)
      && (r.Shell? <==> Build(names, opts, operands).Ok? && Seen(opts, "S"))
      && (r.Shell? ==> r.path == LastArg(opts, 'd', None))
      && (r.Done? ==> r.verbose == Seen(opts, "v"))
  {
    if Build(names, opts, operands).Ok? {
      BuildModes(names, opts, operands);
    }
  }

  /** The finished query starts with the common table expression exactly when
      some option -g, -l or -s was given; the sorted query orders by network
      and context first exactly when -g was given; the unsorted query is the
      select list (beginning with the initial column list), the from list and
      the where list, ended by a semicolon. */
  lemma BuildShape(names: seq<string>, opts: seq<Arg>, operands: seq<string>)
    requires TypeTable(names) && Build(names, opts, operands).Ok?
    ensures var c := Build(names, opts, operands).value; var q := Assemble(c);
      && (StartsWith(q, "WITH results AS (") <==> Seen(opts, "gls"))
      && (Seen(opts, "gls") ==> (EndsWith(q, GroupedOrdering) <==> Seen(opts, "g")))
      && (!Seen(opts, "gls") ==> q == Statement(c) + ";" && StartsWith(q, InitSelect) && StartsWith(q, "SELECT "))
  {
    ParseClauses(names, Initial, opts);
    ParseSort(names, Initial, opts);
    var c := Build(names, opts, operands).value;
    FinishClauses(Parse(names, Initial, opts).value, operands);
    if c.sort {
      SortedShape(c);
    } else {
      UnsortedShape(c);
    }
  }

  /** The search and message columns only extend the select list, and the
      flags pass through unchanged. */
  lemma FinishClauses(c: Clauses, operands: seq<string>)
    requires Fits(c)
    ensures StartsWith(Finish(c, operands).select, c.select)
    ensures Finish(c, operands).sort == c.sort && Finish(c, operands).group == c.group
  {
    var s := Finish(c, operands).select;
    if |operands| > 0 {
      assert s == Appended(c.select, HighlightSql);
    } else {
      assert s == Appended(c.select, MessageSql);
    }
  }

  lemma UnsortedShape(c: Clauses)
    requires !c.sort && StartsWith(c.select, InitSelect)
    ensures StartsWith(Assemble(c), InitSelect) && StartsWith(Assemble(c), "SELECT ")
    ensures !StartsWith(Assemble(c), "WITH results AS (")
  {
    var q := Assemble(c);
    Prefixed(c.select, " " + c.from + " " + c.where);
    Prefixed(Statement(c), ";");
    PrefixTrans(q, Statement(c), c.select);
    PrefixTrans(q, c.select, InitSelect);
    Prefixed("SELECT ", InitColumns);
    PrefixTrans(q, InitSelect, "SELECT ");
    assert q[0] == q[..7][0] == 'S';
    assert "WITH results AS ("[0] == 'W';
  }

  lemma SortedShape(c: Clauses)
    requires c.sort
    ensures StartsWith(Assemble(c), "WITH results AS (")
    ensures EndsWith(Assemble(c), GroupedOrdering) <==> c.group
  {
    var tail := OrderBy(c.group);
    OrderByShape(c.group);
    Prefixed("WITH results AS (", Statement(c) + tail);
    SuffixKept("WITH results AS (", Statement(c) + tail, GroupedOrdering);
    SuffixKept(Statement(c), tail, GroupedOrdering);
  }

  /** The ordering ends with the network and context columns exactly in grouped mode. */
  lemma OrderByShape(group: bool)
    ensures |OrderBy(group)| >= |GroupedOrdering|
    ensures EndsWith(OrderBy(group), GroupedOrdering) <==> group
  {
    if group {
      Suffixed(") SELECT * FROM results ", GroupedOrdering);
    } else {
      UngroupedOrder();
    }
  }

  lemma UngroupedOrder()
    ensures |OrderBy(false)| >= |GroupedOrdering|
    ensures !EndsWith(OrderBy(false), GroupedOrdering)
  {
    var l := ") SELECT * FROM results ";
    var s := OrderBy(false);
    assert s == l + ("ORDER BY " + "" + " time, event;");
    assert |s| == 46 && |GroupedOrdering| == 39;
    assert s[16] == l[16] == 'r';
    assert GroupedOrdering[9] == 'n';
    assert s[7..][9] == 'r';
  }

  // ---------------------------------------------------------------------------
  // The output

  /** The group flag changes no output line, in either format. */
  lemma {:induction false} OutputIgnoresGroup(format: Format, rows: seq<Row>)
    ensures Output(format, true, rows) == Output(format, false, rows)
    decreases |rows|
  {
    if rows != [] {
      OutputIgnoresGroup(format, rows[..|rows| - 1]);
      var e := Normalize(rows[|rows| - 1]);
      assert Render(format, true, e) == Render(format, false, e);
    }
  }
}
