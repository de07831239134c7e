/** The two closed name tables: output formats and event types. Both are
    searched front to back and an unknown name is a usage error. */
module Registry {
  import opened Wrappers
  import opened Text
  import opened Events

  datatype Format = Plain | Irc

  /** Every way the command line is rejected; each exits with EX_USAGE. */
  datatype UsageError = NoSuchFormat(format: string) | NoSuchType(name: string) | UnknownOption(flag: char)

  /** The format table, in the order it is searched. */
  const FormatNames: seq<string> := ["plain", "irc"]
  const FormatTable: seq<Format> := [Plain, Irc]

  /** The format a name selects: the first table entry with that name. */
  function LookupFormat(name: string): (r: Result<Format, UsageError>)
    ensures name == "plain" ==> r == Ok(Plain)
    ensures name == "irc" ==> r == Ok(Irc)
    ensures name != "plain" && name != "irc" ==> r == Err(NoSuchFormat(name))
  {
    IndexOfAbsent(FormatNames, name);
    var i := IndexOf(FormatNames, name);
    if i < |FormatTable| then Ok(FormatTable[i]) else Err(NoSuchFormat(name))
  }

  /** parseFormat: a linear search of the format table that returns on the first match. */
  method ParseFormat(name: string) returns (r: Result<Format, UsageError>)
    ensures r == LookupFormat(name)
  {
    for i := 0 to |FormatNames|
      invariant forall j :: 0 <= j < i ==> FormatNames[j] != name
    {
      if name == FormatNames[i] {
        return Ok(FormatTable[i]);
      }
    }
    return Err(NoSuchFormat(name));
  }

  /** The type-name table: one name per type, indexed by the type's code. */
  predicate TypeTable(names: seq<string>) {
    |names| == TypeCount
  }

  predicate Distinct(names: seq<string>) {
    forall i, j :: 0 <= i < j < |names| ==> names[i] != names[j]
  }

  /** The type a name selects: the type whose code indexes the first table
      entry with that name. */
  function LookupType(names: seq<string>, input: string): (r: Result<EventType, UsageError>)
    requires TypeTable(names)
    ensures r.Ok? <==> input in names
    ensures r.Ok? ==> names[Code(r.value)] == input
    ensures r.Ok? ==> forall j :: 0 <= j < Code(r.value) ==> names[j] != input
    ensures r.Err? ==> r.error == NoSuchType(input)
  {
    IndexOfAbsent(names, input);
    var i := IndexOf(names, input);
    if i < |names| then Ok(TypeOf(i).value) else Err(NoSuchType(input))
  }

  /** parseType: a linear search of the type-name table that returns on the first match. */
  method ParseType(names: seq<string>, input: string) returns (r: Result<EventType, UsageError>)
    requires TypeTable(names)
    ensures r == LookupType(names, input)
  {
    for i := 0 to |names|
      invariant forall j :: 0 <= j < i ==> names[j] != input
    {
      if input == names[i] {
        return Ok(TypeOf(i).value);
      }
    }
    return Err(NoSuchType(input));
  }

  /** With distinct names, looking up the name of a type gives that type back. */
  lemma TypeNameRoundTrip(names: seq<string>, t: EventType)
    requires TypeTable(names) && Distinct(names)
    ensures LookupType(names, names[Code(t)]) == Ok(t)
  {
    var r := LookupType(names, names[Code(t)]);
    assert r.Ok?;
    assert Code(r.value) == Code(t);
    CodeRoundTrip(t);
    CodeRoundTrip(r.value);
  }

  /** The formatter a format stands for. */
  function Render(format: Format, group: bool, e: Event): string {
    match format
    case Plain => FormatPlain(group, e)
    case Irc => FormatIrc(group, e)
  }
}
