# scoop: query composition and event formatting

`scoop` is the query tool of a chat-log database. Its command line sets
search conditions. From them it builds one SQL statement in three fixed
4096-byte clause buffers: the select list, the from list and the where list.
It also builds an ordered list of named parameter bindings. It then wraps the
statement in an ordering common table expression when sorting is asked for,
applies the bindings as text or as integers, and writes each result row in
one of two formats:
- the human-readable "plain" line;
- an IRC wire line: an IRCv3 `@time=` tag, a source prefix and an
  RFC 1459 / RFC 2812 command, ended by CR LF.

The model has seven files:

- `text.dfy`: `Option`/`Result` (module `Wrappers`), plus prefix and suffix
  tests and the first-occurrence search (module `Text`).
- `events.dfy` (module `Events`): the event types and their integer codes,
  the event and row records, and NULL normalisation. It defines `formatPlain`
  and `formatIRC` as functions that return the text the `printf` calls write.
- `registry.dfy` (module `Registry`): the format table and the type-name
  table, each as a lookup function and as the source's search loop proved
  equal to it.
- `clause.dfy` (module `Clause`): a clause buffer is an `array` of `QueryCap`
  cells, each a character or the terminating NUL. `Append` is strlen followed
  by the truncating `snprintf`, proved against the string function `Appended`.
- `query.dfy` (module `Query`): the value-level description of `main`. It
  covers:
  - the option switch, split into the case an option selects (`Decode`) and
    what that case does (`Apply`);
  - the loop (`Parse`);
  - the search and limit additions (`Finish`);
  - the sorted and unsorted statement (`Assemble`);
  - the bind calls (`BindAll`);
  - the printed rows (`Output`);
  - the whole run (`Run`);
  - reference descriptions of what each option pushes and appends and of
    which options are refused (`OptionBinds`, `Pushed`, `OptionFragments`,
    `Fragments`, `Seen`, `LastArg`, `Rejected`, `Reason`).
- `query_properties.dfy` (module `QueryProperties`): what the loop and the
  assembler promise, proved about those descriptions.
- `scoop.dfy` (module `Scoop`): the imperative program. Class `Builder`
  holds the three buffers and the locals of `main` that the option loop
  updates. Each of its methods is proved to leave the state the function in
  `Query` describes. `ApplyBinds`, `PrintRows` and `Execute` are the binding
  loop, the row loop and `main`.

The event type is stored as an integer column. Codes 0 to 10 stand for
Privmsg, Notice, Action, Join, Part, Quit, Kick, Nick, Topic, Ban and Unban,
in that order. An unknown code makes both switches print nothing after the
prefix.

Two behaviours of the code may surprise:
- An append that does not fit is truncated silently, as `snprintf` does. It
  is neither rejected nor reported.
- The sorted statement orders by `time, event`, optionally preceded by
  `network, context,`.

## Model

| member | source | states |
|---|---|---|
| Events.TypeOf | src/gemlogs/scoop.c:460 | a stored code names a type exactly when it lies in 0..10, and then it is that type's code |
| Events.CodeRoundTrip | src/gemlogs/scoop.c:59 | reading back the code of a type gives the type |
| Events.Normalize | src/gemlogs/scoop.c:454-468 | a NULL target or message becomes "", a present one is kept, and every other column is copied unchanged |
| Events.PlainPrefix | src/gemlogs/scoop.c:71 | defines the prefix `network/context: [time] ` |
| Events.PlainBody | src/gemlogs/scoop.c:72-106 | defines the body each type prints (its fixed template over nick, target and message with a final newline), and nothing for an unknown code |
| Events.FormatPlain | src/gemlogs/scoop.c:69-107 | defines formatPlain's output: the prefix, then the body; the group flag is unused |
| Events.PlainLine | src/gemlogs/scoop.c:69-107 | every plain line starts with `network/context: [time] `; an unknown type prints that prefix alone; a known type ends the line with a newline and holds no other newline when no field does |
| Events.PlainBodyLine | src/gemlogs/scoop.c:72-106 | the body of each known type ends in a newline and holds no other newline when nick, target and message hold none |
| Events.PlainIgnoresGroupAndSource | src/gemlogs/scoop.c:69-71 | the group flag, the user and the host never change a plain line |
| Events.ShortSource | src/gemlogs/scoop.c:112 | defines the server source prefix `@time=T :host ` |
| Events.FullSource | src/gemlogs/scoop.c:114 | defines the user source prefix `@time=T :nick!user@host ` |
| Events.IrcSource | src/gemlogs/scoop.c:111-115 | defines the choice of prefix: short exactly when host equals nick |
| Events.WireEvent | src/gemlogs/scoop.c:116 | defines the event the command is written for: context "*" when it equals the nick |
| Events.Verb | src/gemlogs/scoop.c:117-151 | defines the RFC 1459 verb of each type: MODE for bans, PRIVMSG for actions |
| Events.IrcParams | src/gemlogs/scoop.c:118-150 | defines each type's parameters, with the CTCP ACTION framing for actions |
| Events.IrcCommand | src/gemlogs/scoop.c:117-151 | defines the command of a known type (verb, space, parameters, CR LF) and nothing for an unknown code |
| Events.FormatIrc | src/gemlogs/scoop.c:109-152 | defines formatIRC's output: the source prefix, then the command for the event with its context rewritten; the group flag is unused |
| Events.IrcParamsShape | src/gemlogs/scoop.c:117-151 | every command but QUIT and NICK names the context first (JOIN names only the context), and the parameters hold no CR or LF when context, target and message hold none |
| Events.IrcCommandLine | src/gemlogs/scoop.c:117-151 | a known type's command is `VERB `, then the context first for all but QUIT and NICK, and ends in CR LF with no other CR or LF when the fields hold none |
| Events.IrcSplit | src/gemlogs/scoop.c:109-116 | an IRC line is the source prefix followed by the command of the event, with the context replaced by "*" when it equals the nick, every other field unchanged |
| Events.IrcSourcePrefix | src/gemlogs/scoop.c:111-115 | the line starts with `@time=T :host ` when host equals nick, and with `@time=T :nick!user@host ` otherwise |
| Events.IrcLine | src/gemlogs/scoop.c:109-152 | for every known type the IRC line ends with CR LF and holds no other CR or LF when no field does |
| Events.IrcContext | src/gemlogs/scoop.c:116-151 | a command that names a context names "*" when the context is the sender's nick, and the context itself otherwise |
| Events.IrcPrivate | src/gemlogs/scoop.c:116 | a private conversation is written exactly as the same event in context "*" |
| Events.IrcContextFree | src/gemlogs/scoop.c:133-141 | QUIT and NICK lines do not depend on the context |
| Events.IrcIgnoresGroup | src/gemlogs/scoop.c:109-110 | no IRC line depends on the group flag, for any event |
| Registry.LookupFormat | src/gemlogs/scoop.c:154-167 | "plain" selects the plain formatter, "irc" the IRC one, and every other name is a usage error naming it |
| Registry.ParseFormat | src/gemlogs/scoop.c:162-167 | the search loop returns exactly what the lookup defines |
| Registry.LookupType | src/gemlogs/scoop.c:261-272 | a name is accepted exactly when the table holds it, and then it gives the type of the first entry with that name; otherwise it is a usage error naming the input |
| Registry.ParseType | src/gemlogs/scoop.c:267-272 | the search loop returns exactly what the lookup defines |
| Registry.Render | src/gemlogs/scoop.c:469 | defines the call through the selected formatter: plain or IRC |
| Registry.TypeNameRoundTrip | src/gemlogs/scoop.c:261-272 | with distinct names, looking up the name of any type gives that type back |
| Clause.Appended | src/gemlogs/scoop.c:248-251 | the new contents keep the old ones as a prefix and continue with a prefix of " " + sql; they are all of it when it fits, and exactly 4095 characters otherwise; the length stays below the capacity |
| Clause.AppendAll | src/gemlogs/scoop.c:248-251 | a sequence of appends, in order, still fits the buffer |
| Clause.Strlen | src/gemlogs/scoop.c:249 | the length is the index of the first NUL, which is inside the buffer |
| Clause.NewBuffer | src/gemlogs/scoop.c:213-246 | a statically initialised buffer is terminated and holds its initialiser |
| Clause.Append | src/gemlogs/scoop.c:248-251 | the buffer stays terminated and afterwards holds the old string appended with sql, truncated to fit |
| Query.Filter | src/gemlogs/scoop.c:305-307 | a filter keeps every clause within its buffer and keeps the old where list as a prefix |
| Query.Decode | src/gemlogs/scoop.c:287-381 | defines the case of the switch each flag selects, with the format and type looked up; an unknown flag is rejected |
| Query.Apply | src/gemlogs/scoop.c:287-381 | no case of the switch lets a clause outgrow its buffer |
| Query.Step | src/gemlogs/scoop.c:287-381 | one pass of the switch keeps every clause within its buffer |
| Query.Parse | src/gemlogs/scoop.c:286-382 | the whole loop, stopping at the first refused option, keeps every clause within its buffer |
| Query.Finish | src/gemlogs/scoop.c:384-400 | the search and limit additions keep every clause within its buffer |
| Query.Build | src/gemlogs/scoop.c:286-400 | defines the clauses the command line builds: the loop and then the additions, or the loop's usage error |
| Query.Statement | src/gemlogs/scoop.c:432 | defines the three lists joined by spaces |
| Query.OrderBy | src/gemlogs/scoop.c:424-429 | defines the text after the statement in the sorted form, with `network, context,` only when grouped |
| Query.Assemble | src/gemlogs/scoop.c:419-433 | defines the statement text: the common table expression when sorted, the three lists and a semicolon otherwise |
| Query.Bound | src/gemlogs/scoop.c:440-444 | defines the bind call of one binding: text when it has text, integer otherwise |
| Query.BindAll | src/gemlogs/scoop.c:439-445 | defines the bind calls of a list of bindings, in list order |
| Query.Output | src/gemlogs/scoop.c:454-470 | defines the printed text: every row normalised and formatted, in order |
| Query.Run | src/gemlogs/scoop.c:274-475 | defines how a run ends: the usage error, the shell hand-off, or the query, bind calls, verbose flag, output and warning |
| Query.OptionBinds | src/gemlogs/scoop.c:288-372 | reference table of the bindings each option pushes |
| Query.Pushed | src/gemlogs/scoop.c:286-382 | reference: the bindings a list of options pushes, in encounter order |
| Query.OptionFragments | src/gemlogs/scoop.c:288-379 | reference table of the where fragments each option appends |
| Query.Fragments | src/gemlogs/scoop.c:286-382 | reference: the where fragments a list of options appends, in encounter order |
| Query.Seen | src/gemlogs/scoop.c:286-382 | reference: some option has one of the given flags |
| Query.LastArg | src/gemlogs/scoop.c:328-345 | reference: the argument of the last option with a flag |
| Query.Rejected | src/gemlogs/scoop.c:331-380 | reference: an option is unknown, names no format or names no type |
| Query.Reason | src/gemlogs/scoop.c:331-380 | reference: the usage error a refused option causes |
| QueryProperties.ActionBinds | src/gemlogs/scoop.c:287-381 | defines the bindings each case of the switch pushes |
| QueryProperties.ActionFragments | src/gemlogs/scoop.c:287-381 | defines the where fragments each case of the switch appends |
| QueryProperties.SearchBinds | src/gemlogs/scoop.c:388-392 | defines the bindings search mode pushes |
| QueryProperties.OptionBindsShape | src/gemlogs/scoop.c:288-372 | each filter and -F and -L push exactly one binding and no other option pushes any; text filters bind their argument as text; -t binds the type code as an integer with no text |
| QueryProperties.ApplyFacts | src/gemlogs/scoop.c:287-381 | a case fails exactly when it rejects, and with its error; otherwise it appends exactly its own binding, leaves select and from alone, only extends where, sets sort, group, limit and path as its kind says, and changes shell, verbose and format only in their own cases |
| QueryProperties.DecodeBinds | src/gemlogs/scoop.c:287-381 | the case an option selects pushes the option's reference bindings |
| QueryProperties.DecodeModes | src/gemlogs/scoop.c:309-374 | only -S hands off to the shell, only -v is verbose, and only -f sets the format, exactly when its argument names one |
| QueryProperties.DecodeFlags | src/gemlogs/scoop.c:328-364 | only -g, -l and -s sort, only -g groups, only -l sets the limit and only -d sets the path, each to its argument |
| QueryProperties.DecodeRejects | src/gemlogs/scoop.c:331-380 | an option is refused exactly when it is unknown, names no format or names no type, with the matching error |
| QueryProperties.StepFacts | src/gemlogs/scoop.c:286-382 | one pass of the loop fails exactly for a refused option; otherwise it pushes exactly the option's reference bindings, appends exactly its reference fragments to where, leaves select and from alone, sets sort, group, limit and path by flag, sets shell only for -S and verbose only for -v, and changes the format only for -f, to the one it names |
| QueryProperties.StepModes | src/gemlogs/scoop.c:309-374 | an accepted option sets shell only for -S and verbose only for -v, and changes the format only for -f, to the one it names |
| QueryProperties.StepFlags | src/gemlogs/scoop.c:328-364 | an accepted option sets sort, group, limit and path by its flag |
| QueryProperties.ApplyWhere | src/gemlogs/scoop.c:287-381 | a case of the switch appends exactly its own fragments to where: a filter its condition, -w "AND" and then its text |
| QueryProperties.DecodeFragments | src/gemlogs/scoop.c:287-381 | the case an option selects appends the option's reference fragments |
| QueryProperties.StepWhere | src/gemlogs/scoop.c:287-381 | an accepted option appends exactly its reference fragments to where |
| QueryProperties.FragmentsPairBinds | src/gemlogs/scoop.c:288-379 | each filter appends one fragment and pushes one binding, so fragments and bindings come in the same order; -F and -L push a binding with no fragment; -w appends "AND" and its text and no binding |
| QueryProperties.AppendAllConcat | src/gemlogs/scoop.c:248-251 | appending two lists of fragments is appending the first and then the second |
| QueryProperties.ParseWhere | src/gemlogs/scoop.c:286-382 | after the loop the where list is the initial one with every option's fragments appended in encounter order |
| QueryProperties.ParseBinds | src/gemlogs/scoop.c:286-382 | after the loop the bindings are the initial ones followed by every option's own, in encounter order |
| QueryProperties.ParseClauses | src/gemlogs/scoop.c:286-382 | the loop leaves select and from unchanged and keeps the initial where list as a prefix |
| QueryProperties.ParseSort | src/gemlogs/scoop.c:334-364 | sort is set exactly when some -g, -l or -s was given, and group exactly when some -g was |
| QueryProperties.ParseSnoc | src/gemlogs/scoop.c:286-382 | the loop over one more option is the loop followed by one more pass |
| QueryProperties.ParseModes | src/gemlogs/scoop.c:286-382 | the shell hand-off (verbose output) is on after the loop exactly when it was before or some -S (-v) was given |
| QueryProperties.ParseLastFormat | src/gemlogs/scoop.c:331-333 | the format after the loop is the one the last -f names, or the one before the loop when no -f was given |
| QueryProperties.ParseFormatFrom | src/gemlogs/scoop.c:331-333 | the same, read from the front with the last earlier -f as the default |
| QueryProperties.LastArgDefault | src/gemlogs/scoop.c:328-345 | with a default there is always a last argument |
| QueryProperties.LastArgCons | src/gemlogs/scoop.c:328-345 | the last argument of a flag, read from the front, takes the first option as the default for the rest |
| QueryProperties.ParseLast | src/gemlogs/scoop.c:328-345 | the limit and the database path are the arguments of the last -l and the last -d |
| QueryProperties.ParseRejects | src/gemlogs/scoop.c:286-382 | the loop fails exactly when some option is refused, and then with the error of the first refused option |
| QueryProperties.BuildBinds | src/gemlogs/scoop.c:286-400 | the final bindings are each option's own in order, then the search phrase with the two highlight delimiters, then the limit of the last -l when there is one |
| QueryProperties.BuildClauses | src/gemlogs/scoop.c:384-400 | the final select list gains the highlight column in search mode and the message column otherwise; the from list gains the search join in search mode only; the where list is the initial one with every option's fragments, then the search match, then the limit clause when some -l was given |
| QueryProperties.SearchDelimiters | src/gemlogs/scoop.c:384-392 | in search mode the phrase, `:open` = "" and `:close` = "" are bound as text right after the option bindings, so the delimiters are never NULL |
| QueryProperties.BuildModes | src/gemlogs/scoop.c:274-400 | the finished program hands off to the shell exactly when some -S was given, is verbose exactly when some -v was, uses the path of the last -d, and formats as the last -f names, plainly when there is none |
| QueryProperties.RunEnding | src/gemlogs/scoop.c:274-475 | a run ends with the usage error exactly when the command line is refused, hands off to the shell with the last -d's path exactly when it is accepted and some -S was given, and is verbose exactly when some -v was |
| QueryProperties.LastArgSeen | src/gemlogs/scoop.c:342-345 | a limit is set exactly when some -l was given |
| QueryProperties.FinishClauses | src/gemlogs/scoop.c:384-395 | the search and message columns only extend the select list and leave sort and group alone |
| QueryProperties.BuildShape | src/gemlogs/scoop.c:419-433 | the query starts with `WITH results AS (` exactly when -g, -l or -s was given; a sorted query ends with `ORDER BY network, context, time, event;` exactly when -g was given; an unsorted one is the three lists and a semicolon, beginning with the initial select list |
| QueryProperties.UnsortedShape | src/gemlogs/scoop.c:432 | the unsorted query begins with the select list's initial columns and not with the common table expression |
| QueryProperties.SortedShape | src/gemlogs/scoop.c:421-430 | the sorted query begins with the common table expression and orders by network and context first exactly when grouped |
| QueryProperties.OrderByShape | src/gemlogs/scoop.c:424-429 | the ordering ends with `ORDER BY network, context, time, event;` exactly in grouped mode |
| QueryProperties.UngroupedOrder | src/gemlogs/scoop.c:424-429 | the ungrouped ordering does not end with the grouped one |
| QueryProperties.OutputIgnoresGroup | src/gemlogs/scoop.c:454-470 | the group flag changes no printed row in either format |
| Scoop.Builder.constructor | src/gemlogs/scoop.c:213-246 | the buffers hold their static initialisers and the option state starts empty, unsorted, ungrouped, plain and quiet |
| Scoop.Builder.Filter | src/gemlogs/scoop.c:305-307 | a filter appends its fragment to where and its binding to the list, and changes nothing else |
| Scoop.Builder.Perform | src/gemlogs/scoop.c:287-381 | carrying out a case of the switch leaves the state the value-level case describes, or reports its usage error |
| Scoop.Builder.ApplyOption | src/gemlogs/scoop.c:287-381 | one pass of the loop leaves the state one step of the description gives, or reports the option's usage error |
| Scoop.Builder.ParseOptions | src/gemlogs/scoop.c:286-382 | the loop leaves the state the whole description gives, or reports the error of the first refused option |
| Scoop.Builder.FinishClauses | src/gemlogs/scoop.c:384-400 | the search or message column and the limit are added as described |
| Scoop.Builder.AssembleQuery | src/gemlogs/scoop.c:419-433 | the statement text is the sorted or unsorted assembly of the three buffers' strings |
| Scoop.Read | src/gemlogs/scoop.c:425-432 | reading a buffer as `%s` gives the string before its first NUL |
| Scoop.Select | src/gemlogs/scoop.c:287-381 | the switch selects the case the description gives, with the same format and type lookups |
| Scoop.ApplyBinds | src/gemlogs/scoop.c:439-445 | one call per binding in list order, text when the binding has text and integer otherwise |
| Scoop.PrintRows | src/gemlogs/scoop.c:454-470 | the printed text is every row, NULLs normalised, in the chosen format and in order |
| Scoop.Execute | src/gemlogs/scoop.c:274-475 | a whole run ends as described: usage error, shell hand-off, or the query, its bind calls and the printed rows |

## Left out

- `regexp` and `regexpFree` (the SQLite `REGEXP` function over POSIX
  `regcomp`/`regexec`) are foreign library calls.
- Database plumbing is foreign I/O: `dbFind`, the schema check with its
  `EX_CONFIG` exit, `sqlite3_create_function`, preparing, binding and
  stepping the statement, and closing. The bind calls are returned as a list.
  The rows the statement yields are a parameter. A failed step is a boolean
  that is reported as a warning.
- The `-S` hand-off runs `execlp` and replaces the process. It is modelled
  as the `Shell` ending, carrying the `-d` path. The opened database's file
  name is not modelled.
- `-v` prints `sqlite3_expanded_sql` on standard error. Only the verbose
  flag is modelled.
- `getopt` itself is not modelled. Options arrive already split into
  (flag, argument) pairs, and the operands are the remaining arguments.
  getopt's own diagnostic for an unknown option is not modelled.
- The SQL fragments are opaque constants. Their meaning (dates, strftime, the
  FTS5 `highlight` and `MATCH`) belongs to SQLite.
- `database.h` is not part of this model:
  - The type-name table generated from `ENUM_TYPE` is the parameter `names`
    of length 11.
  - The order of the event codes is assumed as listed above.
- The bind array is declared with `argc + 2` entries. Its capacity is not
  modelled; the bindings are a sequence. Bundled flags such as `-Lpq` push
  several bindings for one argument, so the code does not keep that bound.
- A fragment or argument is a C string and so holds no NUL. The model copies
  a `'\0'` character inside a Dafny string into a character cell, where C
  would stop at it.
- Clause.Appended: the capacity counts characters, where `snprintf`
  counts bytes. For multi-byte UTF-8 text the C buffer takes fewer
  characters than the model says before it truncates: appending 100 `é` to a
  4000-byte where list keeps 47 of them in the C and 94 in the model. With an
  odd number of bytes left, the C also cuts a character in half. Dafny
  strings are sequences of characters, and the byte encoding of the
  arguments is not modelled.
- Clause.Append: the same character count stands in for the byte count of the
  C buffer.
- Row: only the target and message may be NULL. `sqlite3_column_text`
  also returns NULL for a NULL network, context, time, nick, user or host.
  The time is a `strftime` result, so it can be NULL. The C would then pass
  NULL to `printf("%s")` or `strcmp`, which is undefined behaviour. The model
  does not represent such rows.
- Memory-allocation failures (`asprintf`, `strdup`) and their `EX_OSERR`
  exits are not modelled.
