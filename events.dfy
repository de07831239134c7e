/** The event record a query row turns into, and the two output formats:
    the human-readable "plain" line and the IRC wire line (a message with an
    IRCv3 `time` tag and an RFC 1459 / RFC 2812 command, ended by CR LF). */
module Events {
  import opened Wrappers
  import opened Text

  /** The closed set of event kinds. */
  datatype EventType = Privmsg | Notice | Action | Join | Part | Quit | Kick | Nick | Topic | Ban | Unban

  const TypeCount: nat := 11

  /** The integer code of a type: its position in the enumeration. */
  function Code(t: EventType): (c: nat)
    ensures c < TypeCount
  {
    match t
    case Privmsg => 0
    case Notice => 1
    case Action => 2
    case Join => 3
    case Part => 4
    case Quit => 5
    case Kick => 6
    case Nick => 7
    case Topic => 8
    case Ban => 9
    case Unban => 10
  }

  /** The type a stored integer code stands for, if any. */
  function TypeOf(code: int): (t: Option<EventType>)
    ensures t.Some? <==> 0 <= code < TypeCount
    ensures t.Some? ==> Code(t.value) == code
  {
    if code == 0 then Some(Privmsg)
    else if code == 1 then Some(Notice)
    else if code == 2 then Some(Action)
    else if code == 3 then Some(Join)
    else if code == 4 then Some(Part)
    else if code == 5 then Some(Quit)
    else if code == 6 then Some(Kick)
    else if code == 7 then Some(Nick)
    else if code == 8 then Some(Topic)
    else if code == 9 then Some(Ban)
    else if code == 10 then Some(Unban)
    else None
  }

  lemma CodeRoundTrip(t: EventType)
    ensures TypeOf(Code(t)) == Some(t)
  {
  }

  /** One result row as the formatters see it; `eventType` is the integer
      column, which need not name a type. */
  datatype Event = Event(network: string, context: string, time: string, eventType: int,
                         nick: string, user: string, host: string, target: string, message: string)

  /** One result row as the database returns it: `target` and `message` may be NULL. */
  datatype Row = Row(network: string, context: string, time: string, eventType: int,
                     nick: string, user: string, host: string,
                     target: Option<string>, message: Option<string>)

  /** A NULL target or message becomes the empty string; everything else is copied. */
  function Normalize(row: Row): (e: Event)
    ensures row.target == None ==> e.target == ""
    ensures row.message == None ==> e.message == ""
    ensures row.target.Some? ==> e.target == row.target.value
    ensures row.message.Some? ==> e.message == row.message.value
    ensures e.(target := "", message := "")
         == Event(row.network, row.context, row.time, row.eventType,
                  row.nick, row.user, row.host, "", "")
  {
    Event(row.network, row.context, row.time, row.eventType, row.nick, row.user, row.host,
          if row.target.Some? then row.target.value else "",
          if row.message.Some? then row.message.value else "")
  }

  // ---------------------------------------------------------------------------
  // The plain format

  function PlainPrefix(e: Event): string {
    e.network + "/" + e.context + ": [" + e.time + "] "
  }

  /** The type-specific part of a plain line; an unknown code prints nothing. */
  function PlainBody(e: Event): string {
    match TypeOf(e.eventType)
    case None => ""
    case Some(Privmsg) => "<" + e.nick + "> " + e.message + "\n"
    case Some(Notice) => "-" + e.nick + "- " + e.message + "\n"
    case Some(Action) => "* " + e.nick + " " + e.message + "\n"
    case Some(Join) => e.nick + " joined\n"
    case Some(Part) => e.nick + " parted: " + e.message + "\n"
    case Some(Quit) => e.nick + " quit: " + e.message + "\n"
    case Some(Kick) => e.nick + " kicked " + e.target + ": " + e.message + "\n"
    case Some(Nick) => e.nick + " changed nick to " + e.target + "\n"
    case Some(Topic) => e.nick + " set the topic: " + e.message + "\n"
    case Some(Ban) => e.nick + " banned " + e.target + "\n"
    case Some(Unban) => e.nick + " unbanned " + e.target + "\n"
  }

  /** The text formatPlain writes for one event. The group flag is accepted and unused. */
  function FormatPlain(group: bool, e: Event): string {
    PlainPrefix(e) + PlainBody(e)
  }

  // ---------------------------------------------------------------------------
  // The IRC wire format

  /** The source prefix of a server (host equal to nick): `@time=T :host `. */
  function ShortSource(e: Event): string {
    "@time=" + e.time + " :" + e.host + " "
  }

  /** The source prefix of a user: `@time=T :nick!user@host `. */
  function FullSource(e: Event): string {
    "@time=" + e.time + " :" + e.nick + "!" + e.user + "@" + e.host + " "
  }

  /** The command of a known type: its verb, a space, its parameters and
      CR LF; an unknown code prints nothing. */
  function IrcCommand(e: Event): string {
    match TypeOf(e.eventType)
    case None => ""
    case Some(t) => Verb(t) + " " + IrcParams(t, e) + "\r\n"
  }

  /** The parameters of each command; an action is a PRIVMSG framed as a CTCP ACTION. */
  function IrcParams(t: EventType, e: Event): string {
    match t
    case Privmsg => e.context + " :" + e.message
    case Notice => e.context + " :" + e.message
    case Action => e.context + " :\U{1}ACTION " + e.message + "\U{1}"
    case Join => e.context
    case Part => e.context + " :" + e.message
    case Quit => ":" + e.message
    case Kick => e.context + " " + e.target + " :" + e.message
    case Nick => e.target
    case Topic => e.context + " :" + e.message
    case Ban => e.context + " +b " + e.target
    case Unban => e.context + " -b " + e.target
  }

  /** The text formatIRC writes for one event: the source prefix, then the
      command, with the context replaced by "*" when it is the sender's own
      nick (a private conversation). The group flag is accepted and unused. */
  function FormatIrc(group: bool, e: Event): string {
    var source := if e.host == e.nick then ShortSource(e) else FullSource(e);
    var e' := if e.context == e.nick then e.(context := "*") else e;
    source + IrcCommand(e')
  }

  /** The RFC 1459 command each type is written as. */
  function Verb(t: EventType): string {
    match t
    case Privmsg => "PRIVMSG"
    case Notice => "NOTICE"
    case Action => "PRIVMSG"
    case Join => "JOIN"
    case Part => "PART"
    case Quit => "QUIT"
    case Kick => "KICK"
    case Nick => "NICK"
    case Topic => "TOPIC"
    case Ban => "MODE"
    case Unban => "MODE"
  }

  // ---------------------------------------------------------------------------
  // Properties of the plain format

  /** Every plain line starts with `network/context: [time] `; for a known
      type it ends with a newline, and it is a single line when no field holds
      a newline. An unknown type prints the prefix alone. */
  lemma PlainLine(group: bool, e: Event)
    ensures StartsWith(FormatPlain(group, e), e.network + "/" + e.context + ": [" + e.time + "] ")
    ensures TypeOf(e.eventType) == None ==> FormatPlain(group, e) == PlainPrefix(e)
    ensures TypeOf(e.eventType).Some? ==> EndsWith(FormatPlain(group, e), "\n")
    ensures TypeOf(e.eventType).Some? && '\n' !in e.network + e.context + e.time + e.nick + e.target + e.message
            ==> var r := FormatPlain(group, e); '\n' !in r[..|r| - 1]
  {
    var p, b := PlainPrefix(e), PlainBody(e);
    Prefixed(p, b);
    if TypeOf(e.eventType).Some? {
      PlainBodyLine(e);
      if '\n' !in e.network + e.context + e.time + e.nick + e.target + e.message {
        NoNewline(e);
        assert '\n' !in p;
      }
      SingleTerminator(p, b, '\n');
    }
  }


  /** A line whose body ends in `c` ends in `c`; it holds no other `c` when
      neither the prefix nor the rest of the body does. */
  lemma SingleTerminator(p: string, b: string, c: char)
    requires |b| > 0 && b[|b| - 1] == c
    ensures EndsWith(p + b, [c])
    ensures c !in p && c !in b[..|b| - 1] ==> var r := p + b; c !in r[..|r| - 1]
  {
    var r := p + b;
    assert r[|r| - 1] == c;
    assert r[|r| - 1..] == [c];
    assert r[..|r| - 1] == p + b[..|b| - 1];
  }

  /** The body of a known type is one newline-terminated line whose other
      characters come from the fields and the fixed wording. */
  lemma PlainBodyLine(e: Event)
    requires TypeOf(e.eventType).Some?
    ensures var b := PlainBody(e); |b| > 0 && b[|b| - 1] == '\n'
    ensures '\n' !in e.nick + e.target + e.message ==> var b := PlainBody(e); '\n' !in b[..|b| - 1]
  {
    var b := PlainBody(e);
    var w := b[..|b| - 1];
    match TypeOf(e.eventType).value
    case Privmsg => assert b == "<" + e.nick + "> " + e.message + "\n"; assert w == "<" + e.nick + "> " + e.message;
    case Notice => assert w == "-" + e.nick + "- " + e.message;
    case Action => assert w == "* " + e.nick + " " + e.message;
    case Join => assert w == e.nick + " joined";
    case Part => assert w == e.nick + " parted: " + e.message;
    case Quit => assert w == e.nick + " quit: " + e.message;
    case Kick => assert w == e.nick + " kicked " + e.target + ": " + e.message;
    case Nick => assert w == e.nick + " changed nick to " + e.target;
    case Topic => assert w == e.nick + " set the topic: " + e.message;
    case Ban => assert w == e.nick + " banned " + e.target;
    case Unban => assert w == e.nick + " unbanned " + e.target;
  }

  lemma NoNewline(e: Event)
    requires '\n' !in e.network + e.context + e.time + e.nick + e.target + e.message
    ensures '\n' !in e.network && '\n' !in e.context && '\n' !in e.time
    ensures '\n' !in e.nick && '\n' !in e.target && '\n' !in e.message
    ensures '\n' !in e.nick + e.target + e.message
  {
  }

  /** The group flag never changes a plain line, and neither do the user and
      host of the sender, which the plain format never shows. */
  lemma PlainIgnoresGroupAndSource(e: Event, user: string, host: string)
    ensures FormatPlain(true, e) == FormatPlain(false, e)
    ensures FormatPlain(false, e.(user := user, host := host)) == FormatPlain(false, e)
  {
  }

  // ---------------------------------------------------------------------------
  // Properties of the IRC wire format

  /** No carriage return and no line feed. */
  predicate NoBreak(s: string) {
    '\r' !in s && '\n' !in s
  }

  /** The types whose command names the context as its first parameter. */
  predicate NamesContext(t: EventType) {
    t != Quit && t != Nick
  }

  /** The parameters name the context first for every type but QUIT and
      NICK, and hold no CR or LF when the context, target and message hold none. */
  lemma IrcParamsShape(t: EventType, e: Event)
    ensures t == Join ==> IrcParams(t, e) == e.context
    ensures NamesContext(t) && t != Join ==> StartsWith(IrcParams(t, e), e.context + " ")
    ensures NoBreak(e.context) && NoBreak(e.target) && NoBreak(e.message) ==> NoBreak(IrcParams(t, e))
  {
    var p := IrcParams(t, e);
    var head := e.context + " ";
    match t
    case Privmsg => assert p[..|head|] == head;
    case Notice => assert p[..|head|] == head;
    case Action => assert p[..|head|] == head;
    case Join =>
    case Part => assert p[..|head|] == head;
    case Quit =>
    case Kick => assert p[..|head|] == head;
    case Nick =>
    case Topic => assert p[..|head|] == head;
    case Ban => assert p[..|head|] == head;
    case Unban => assert p[..|head|] == head;
  }

  /** A command of a known type is `VERB `, its parameters and CR LF, the first
      parameter being the context for every type but QUIT and NICK; it holds no
      other CR or LF when the context, target and message hold none. */
  lemma IrcCommandLine(e: Event)
    requires TypeOf(e.eventType).Some?
    ensures var c := IrcCommand(e); |c| >= 2 && c[|c| - 2..] == "\r\n"
    ensures var t := TypeOf(e.eventType).value;
            NamesContext(t) ==> StartsWith(IrcCommand(e), Verb(t) + " " + e.context + (if t == Join then "\r\n" else " "))
    ensures StartsWith(IrcCommand(e), Verb(TypeOf(e.eventType).value) + " ")
    ensures NoBreak(e.context) && NoBreak(e.target) && NoBreak(e.message)
            ==> var c := IrcCommand(e); NoBreak(c[..|c| - 2])
  {
    var t := TypeOf(e.eventType).value;
    var v, p := Verb(t) + " ", IrcParams(t, e);
    assert IrcCommand(e) == v + p + "\r\n";
    IrcParamsShape(t, e);
    VerbNoBreak(t);
    if t == Join {
      Framed(v, p, e.context);
    } else {
      Framed(v, p, e.context + " ");
    }
  }

  /** A verb, its parameters and CR LF: the line ends with CR LF, starts with
      the verb, and starts with the verb and `h` when the parameters start with
      `h` (followed by CR LF when the parameters are `h`). */
  lemma Framed(v: string, p: string, h: string)
    ensures var c := v + p + "\r\n"; |c| >= 2 && c[|c| - 2..] == "\r\n" && c[..|c| - 2] == v + p
    ensures StartsWith(v + p + "\r\n", v)
    ensures StartsWith(p, h) ==> StartsWith(v + p + "\r\n", v + h)
    ensures p == h ==> StartsWith(v + p + "\r\n", v + h + "\r\n")
  {
    var c := v + p + "\r\n";
    assert c[|c| - 2..] == "\r\n";
    assert c[..|c| - 2] == v + p;
    assert c[..|v|] == v;
    if StartsWith(p, h) {
      assert c[..|v + h|] == v + h;
    }
  }

  /** No verb holds a CR or LF. */
  lemma VerbNoBreak(t: EventType)
    ensures NoBreak(Verb(t) + " ")
  {
    match t
    case Privmsg => case Notice => case Action => case Join => case Part => case Quit =>
    case Kick => case Nick => case Topic => case Ban => case Unban =>
  }

  /** The source prefix and the event whose command follows it. */
  function IrcSource(e: Event): string {
    if e.host == e.nick then ShortSource(e) else FullSource(e)
  }

  function WireEvent(e: Event): Event {
    if e.context == e.nick then e.(context := "*") else e
  }

  lemma IrcSplit(group: bool, e: Event)
    ensures FormatIrc(group, e) == IrcSource(e) + IrcCommand(WireEvent(e))
    ensures WireEvent(e).eventType == e.eventType
    ensures WireEvent(e).target == e.target && WireEvent(e).message == e.message
    ensures WireEvent(e).context == if e.context == e.nick then "*" else e.context
  {
  }

  /** An IRC line starts with the short source prefix exactly when the host
      equals the nick, and with the full prefix otherwise. */
  lemma IrcSourcePrefix(group: bool, e: Event)
    ensures e.host == e.nick ==> StartsWith(FormatIrc(group, e), "@time=" + e.time + " :" + e.host + " ")
    ensures e.host != e.nick
            ==> StartsWith(FormatIrc(group, e), "@time=" + e.time + " :" + e.nick + "!" + e.user + "@" + e.host + " ")
  {
    IrcSplit(group, e);
    Joined(IrcSource(e), IrcCommand(WireEvent(e)), 0);
  }

  /** For a known type an IRC line ends with CR LF, and holds no other CR or
      LF when no field does. */
  lemma IrcLine(group: bool, e: Event)
    requires TypeOf(e.eventType).Some?
    ensures EndsWith(FormatIrc(group, e), "\r\n")
    ensures NoBreak(e.time) && NoBreak(e.nick) && NoBreak(e.user) && NoBreak(e.host)
            && NoBreak(e.context) && NoBreak(e.target) && NoBreak(e.message)
            ==> var r := FormatIrc(group, e); NoBreak(r[..|r| - 2])
  {
    IrcSplit(group, e);
    var src, c := IrcSource(e), IrcCommand(WireEvent(e));
    IrcCommandLine(WireEvent(e));
    Joined(src, c, 2);
    if NoBreak(e.time) && NoBreak(e.nick) && NoBreak(e.user) && NoBreak(e.host) {
      SourceNoBreak(e);
    }
  }

  /** The source prefix holds no CR or LF when the time, nick, user and host hold none. */
  lemma SourceNoBreak(e: Event)
    requires NoBreak(e.time) && NoBreak(e.nick) && NoBreak(e.user) && NoBreak(e.host)
    ensures NoBreak(IrcSource(e))
  {
  }

  /** With the context equal to the sender's nick, every command that names a
      context names "*" instead; otherwise it names the context itself. */
  lemma IrcContext(group: bool, e: Event)
    requires TypeOf(e.eventType).Some? && NamesContext(TypeOf(e.eventType).value)
    ensures var t := TypeOf(e.eventType).value;
            var ctx := if e.context == e.nick then "*" else e.context;
            StartsWith(FormatIrc(group, e), IrcSource(e) + Verb(t) + " " + ctx + (if t == Join then "\r\n" else " "))
  {
    var t := TypeOf(e.eventType).value;
    IrcSplit(group, e);
    var src, c := IrcSource(e), IrcCommand(WireEvent(e));
    IrcCommandLine(WireEvent(e));
    var head := Verb(t) + " " + WireEvent(e).context + (if t == Join then "\r\n" else " ");
    assert c[..|head|] == head;
    assert (src + c)[..|src + head|] == src + head;
  }

  /** A private conversation is written exactly as the same event in context "*". */
  lemma IrcPrivate(group: bool, e: Event)
    requires e.context == e.nick
    ensures FormatIrc(group, e) == FormatIrc(group, e.(context := "*"))
  {
  }

  /** QUIT and NICK never mention the context. */
  lemma IrcContextFree(group: bool, e: Event, context: string)
    requires TypeOf(e.eventType) == Some(Quit) || TypeOf(e.eventType) == Some(Nick)
    ensures FormatIrc(group, e.(context := context)) == FormatIrc(group, e)
  {
  }

  /** No IRC line depends on the group flag. */
  lemma IrcIgnoresGroup(e: Event)
    ensures FormatIrc(true, e) == FormatIrc(false, e)
  {
  }
}
