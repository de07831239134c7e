/** The program itself, step by step: the three static clause buffers and the
    locals of `main` that the option loop updates, the loop, the additions
    after it, the statement text, the binding loop and the row loop. The row
    source and the statement's bind calls are values handed in and handed
    back; each method is proved to do what the value-level description in
    module Query says. */
module Scoop {
  import opened Wrappers
  import opened Text
  import opened Clause
  import opened Events
  import opened Registry
  import opened Query

  /** The clause buffers and the option state of `main`. */
  class Builder {
    const select: array<Cell>
    const from: array<Cell>
    const where: array<Cell>
    var binds: seq<Bind>
    var sort: bool
    var group: bool
    var limit: Option<string>
    var shell: bool
    var path: Option<string>
    var format: Format
    var verbose: bool

    ghost predicate Valid()
      reads this, select, from, where
    {
      && IsBuffer(select) && IsBuffer(from) && IsBuffer(where)
      && select != from && select != where && from != where
    }

    /** The state as the values the option loop is described by. */
    ghost function Model(): Clauses
      reads this, select, from, where
      requires Valid()
    {
      Clauses(CStr(select), CStr(from), CStr(where), binds, sort, group, limit, shell, path, format, verbose)
    }

    /** The static initialisers and the initial values of main's locals. */
    constructor ()
      ensures Valid() && Model() == Initial
      ensures fresh(select) && fresh(from) && fresh(where)
    {
      var s := NewBuffer(InitSelect);
      var f := NewBuffer(InitFrom);
      var w := NewBuffer(InitWhere);
      select, from, where := s, f, w;
      binds := [];
      sort, group, limit := false, false, None;
      shell, path, format, verbose := false, None, Plain, false;
    }

    /** A filter: its fragment goes on the where list and its binding on the list. */
    method Filter(sql: string, b: Bind)
      requires Valid()
      modifies this, where
      ensures Valid()
      ensures Model() == old(Model()).(where := Appended(old(CStr(where)), sql), binds := old(binds) + [b])
    {
      Append(where, sql);
      binds := binds + [b];
    }

    /** One case of the switch, carried out. */
    method Perform(a: Action) returns (err: Option<UsageError>)
      requires Valid()
      modifies this, where
      ensures Valid()
      ensures match Apply(old(Model()), a)
              case Ok(c) => err == None && Model() == c
              case Err(e) => err == Some(e)
    {
      err := None;
      match a
      case AddFilter(sql, b) => Filter(sql, b);
      case AddBind(b) => binds := binds + [b];
      case AddWhere(sql) =>
        Append(where, "AND");
        Append(where, sql);
      case SetShell => shell := true;
      case SetPath(p) => path := Some(p);
      case SetFormat(f) => format := f;
      case SetGroup => group, sort := true, true;
      case SetLimit(l) => limit, sort := Some(l), true;
      case SetSort => sort := true;
      case SetVerbose => verbose := true;
      case Reject(e) => err := Some(e);
    }

    /** One pass of the option loop. */
    method ApplyOption(names: seq<string>, arg: Arg) returns (err: Option<UsageError>)
      requires Valid() && TypeTable(names)
      modifies this, where
      ensures Valid()
      ensures match Step(names, old(Model()), arg)
              case Ok(c) => err == None && Model() == c
              case Err(e) => err == Some(e)
    {
      var a := Select(names, arg);
      err := Perform(a);
    }

    /** The option loop: options are handled in order and the first one
        rejected ends the program with its usage error. */
    method ParseOptions(names: seq<string>, opts: seq<Arg>) returns (err: Option<UsageError>)
      requires Valid() && TypeTable(names)
      modifies this, where
      ensures Valid()
      ensures match Parse(names, old(Model()), opts)
              case Ok(c) => err == None && Model() == c
              case Err(e) => err == Some(e)
    {
      ghost var c0 := Model();
      for i := 0 to |opts|
        invariant Valid()
        invariant Parse(names, c0, opts) == Parse(names, Model(), opts[i..])
      {
        assert opts[i..][1..] == opts[i + 1..];
        err := ApplyOption(names, opts[i]);
        if err.Some? {
          return;
        }
      }
      err := None;
    }

    /** After the loop: the search phrase or the plain message column, then the limit. */
    method FinishClauses(operands: seq<string>)
      requires Valid()
      modifies this, select, from, where
      ensures Valid()
      ensures Model() == Finish(old(Model()), operands)
    {
      if |operands| > 0 {
        Append(select, HighlightSql);
        Append(from, SearchJoinSql);
        Append(where, MatchSql);
        binds := binds + [TextBind(":search", operands[0]), TextBind(":open", ""), TextBind(":close", "")];
      } else {
        Append(select, MessageSql);
      }
      if limit.Some? {
        Append(where, LimitSql);
        binds := binds + [TextBind(":limit", limit.value)];
      }
    }

    /** The asprintf of the sorted or the unsorted statement. */
    method AssembleQuery() returns (query: string)
      requires Valid()
      ensures query == Assemble(Model())
    {
      var s := Read(select);
      var f := Read(from);
      var w := Read(where);
      query := Assemble(Clauses(s, f, w, binds, sort, group, limit, shell, path, format, verbose));
    }
  }

  /** The string a buffer holds. */
  method Read(q: array<Cell>) returns (s: string)
    requires IsBuffer(q)
    ensures s == CStr(q)
  {
    var len := Strlen(q);
    var cells := q[..];
    s := Chars(cells[..len]);
  }

  /** The switch: which case an option selects, with the format and type
      names looked up as parseFormat and parseType do. */
  method Select(names: seq<string>, arg: Arg) returns (a: Action)
    requires TypeTable(names)
    ensures a == Decode(names, arg)
  {
    if arg.flag == 'f' {
      var r := ParseFormat(arg.optarg);
      a := if r.Ok? then SetFormat(r.value) else Reject(r.error);
    } else if arg.flag == 't' {
      var r := ParseType(names, arg.optarg);
      a := if r.Ok? then AddFilter(TypeSql, Bind(":type", None, Code(r.value))) else Reject(r.error);
    } else {
      a := Decode(names, arg);
    }
  }

  /** The binding loop: each binding is applied in list order, as text when
      it has text and as an integer otherwise. */
  method ApplyBinds(binds: seq<Bind>) returns (calls: seq<BindCall>)
    ensures calls == BindAll(binds)
    ensures |calls| == |binds|
    ensures forall i :: 0 <= i < |binds| ==>
      if binds[i].text.Some? then calls[i] == BindText(binds[i].param, binds[i].text.value)
      else calls[i] == BindInt(binds[i].param, binds[i].value)
  {
    calls := [];
    for i := 0 to |binds|
      invariant |calls| == i
      invariant forall j :: 0 <= j < i ==> calls[j] == Bound(binds[j])
    {
      if binds[i].text.Some? {
        calls := calls + [BindText(binds[i].param, binds[i].text.value)];
      } else {
        calls := calls + [BindInt(binds[i].param, binds[i].value)];
      }
    }
  }

  /** The row loop: each row's NULL target and message become "" and the row
      is formatted and written out. */
  method PrintRows(format: Format, group: bool, rows: seq<Row>) returns (out: string)
    ensures out == Output(format, group, rows)
  {
    out := "";
    for i := 0 to |rows|
      invariant out == Output(format, group, rows[..i])
    {
      assert rows[..i + 1][..i] == rows[..i];
      out := out + Render(format, group, Normalize(rows[i]));
    }
    assert rows[..|rows|] == rows;
  }

  /** main, from the parsed command line to the last line written. */
  method Execute(names: seq<string>, opts: seq<Arg>, operands: seq<string>, rows: seq<Row>, failed: bool)
    returns (exit: Exit)
    requires TypeTable(names)
    ensures exit == Run(names, opts, operands, rows, failed)
  {
    var b := new Builder();
    var err := b.ParseOptions(names, opts);
    if err.Some? {
      return Usage(err.value);
    }
    ghost var parsed := b.Model();
    assert Parse(names, Initial, opts) == Ok(parsed);
    b.FinishClauses(operands);
    ghost var c := b.Model();
    assert Build(names, opts, operands) == Ok(c);
    if b.shell {
      return Shell(b.path);
    }
    var query := b.AssembleQuery();
    var calls := ApplyBinds(b.binds);
    var out := PrintRows(b.format, b.group, rows);
    exit := Done(query, calls, b.verbose, out, failed);
  }
}
