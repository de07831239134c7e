/** The three fixed-size clause buffers (select list, from list, where list)
    and `append`, which adds a space and a fragment to one of them in place,
    silently truncating what does not fit. */
module Clause {
  import opened Text

  const QueryCap: nat := 4096

  /** One cell of a clause buffer: a character or the terminating NUL. A
      `string` stands for a C string, which holds no NUL, so every character
      of a fragment becomes a `Ch` cell. */
  datatype Cell = Nul | Ch(c: char)

  /** A buffer of QueryCap cells holding a NUL-terminated string. */
  ghost predicate IsBuffer(q: array<Cell>)
    reads q
  {
    q.Length == QueryCap && IndexOf(q[..], Nul) < QueryCap
  }

  /** The characters of a run of non-NUL cells. */
  function Chars(cells: seq<Cell>): (s: string)
    requires forall i :: 0 <= i < |cells| ==> cells[i].Ch?
    ensures |s| == |cells| && forall i :: 0 <= i < |s| ==> cells[i] == Ch(s[i])
  {
    seq(|cells|, i requires 0 <= i < |cells| && cells[i].Ch? => cells[i].c)
  }

  /** The string a buffer holds: the cells before its first NUL (what strlen measures). */
  ghost function CStr(q: array<Cell>): string
    reads q
  {
    var cells := q[..];
    Chars(cells[..IndexOf(cells, Nul)])
  }

  /** The first `n` characters of `t`, or all of it when it is shorter. */
  function Truncate(t: string, n: nat): string {
    if |t| <= n then t else t[..n]
  }

  /** What a buffer holding `query` holds after append(query, sql): the old
      contents, then as much of " " + sql as leaves room for the terminating NUL. */
  function Appended(query: string, sql: string): (r: string)
    requires |query| < QueryCap
    ensures |query| <= |r| <= |query| + 1 + |sql| && |r| < QueryCap
    ensures r[..|query|] == query
    ensures r[|query|..] == (" " + sql)[..|r| - |query|]
    ensures |query| + 1 + |sql| < QueryCap ==> r == query + " " + sql
    ensures |query| + 1 + |sql| >= QueryCap ==> |r| == QueryCap - 1
  {
    query + Truncate(" " + sql, QueryCap - 1 - |query|)
  }

  /** The contents after appending each fragment of `frags` in turn. */
  function AppendAll(query: string, frags: seq<string>): (r: string)
    requires |query| < QueryCap
    ensures |r| < QueryCap
    decreases |frags|
  {
    if frags == [] then query else AppendAll(Appended(query, frags[0]), frags[1..])
  }

  /** strlen: the index of the first NUL. */
  method Strlen(q: array<Cell>) returns (len: nat)
    requires IsBuffer(q)
    ensures len == IndexOf(q[..], Nul) && len < q.Length
  {
    ghost var end := IndexOf(q[..], Nul);
    len := 0;
    while q[len] != Nul
      invariant 0 <= len <= end < q.Length
      decreases end - len
    {
      len := len + 1;
    }
  }

  /** A fresh buffer initialised with `s` (a static initialiser). */
  method NewBuffer(s: string) returns (q: array<Cell>)
    requires |s| < QueryCap
    ensures fresh(q) && IsBuffer(q) && CStr(q) == s
  {
    q := new Cell[QueryCap](i => if 0 <= i < |s| then Ch(s[i]) else Nul);
    Terminated(q[..], [Nul], 0, s, |s|);
  }

  /** append: strlen to find the end, then snprintf(&q[len], QueryCap - len,
      " %s", sql), which copies until the room runs out. */
  method Append(q: array<Cell>, sql: string)
    requires IsBuffer(q)
    modifies q
    ensures IsBuffer(q)
    ensures CStr(q) == Appended(old(CStr(q)), sql)
  {
    ghost var before := q[..];
    var len := Strlen(q);
    var src := " " + sql;
    var room := QueryCap - len;
    var k := 0;
    while k < |src| && k < room - 1
      invariant 0 <= k <= |src| && k <= room - 1
      invariant forall j :: 0 <= j < len ==> q[j] == before[j]
      invariant forall j :: 0 <= j < k ==> q[len + j] == Ch(src[j])
    {
      q[len + k] := Ch(src[k]);
      k := k + 1;
    }
    q[len + k] := Nul;
    Copied(q[..], before, len, sql, k);
  }

  /** The buffer after the copy holds the appended string. */
  lemma Copied(s: seq<Cell>, before: seq<Cell>, len: nat, sql: string, k: nat)
    requires |s| == |before| == QueryCap && len == IndexOf(before, Nul) && len < QueryCap
    requires k <= 1 + |sql| && k <= QueryCap - len - 1
    requires k == 1 + |sql| || k == QueryCap - len - 1
    requires forall j :: 0 <= j < len ==> s[j] == before[j]
    requires forall j :: 0 <= j < k ==> s[len + j] == Ch((" " + sql)[j])
    requires s[len + k] == Nul
    ensures IndexOf(s, Nul) < |s|
    ensures Chars(s[..IndexOf(s, Nul)]) == Appended(Chars(before[..len]), sql)
  {
    var src := " " + sql;
    var query := Chars(before[..len]);
    Terminated(s, before, len, src, k);
    assert Truncate(src, QueryCap - 1 - |query|) == src[..k];
  }

  /** After the copy: the buffer's string is the old string followed by the
      copied characters, none of which is a NUL. */
  lemma Terminated(s: seq<Cell>, before: seq<Cell>, len: nat, src: string, k: nat)
    requires len == IndexOf(before, Nul) && len + k < |s| && k <= |src|
    requires forall j :: 0 <= j < len ==> s[j] == before[j]
    requires forall j :: 0 <= j < k ==> s[len + j] == Ch(src[j])
    requires s[len + k] == Nul
    ensures IndexOf(s, Nul) == len + k
    ensures Chars(s[..len + k]) == Chars(before[..len]) + src[..k]
  {
    var query := Chars(before[..len]);
    var t := query + src[..k];
    forall j | 0 <= j < len + k
      ensures s[j] == Ch(t[j])
    {
      if j < len {
        assert before[..len][j] == before[j];
      } else {
        assert s[len + (j - len)] == Ch(src[j - len]);
      }
    }
    FirstNul(s, len + k);
    CharsOf(s[..len + k], t);
  }

  /** The first NUL is at `n` when the cells before `n` are characters. */
  lemma FirstNul(s: seq<Cell>, n: nat)
    requires n < |s| && s[n] == Nul
    requires forall j :: 0 <= j < n ==> s[j].Ch?
    ensures IndexOf(s, Nul) == n
  {
  }

  /** Cells that spell `t` hold `t`. */
  lemma CharsOf(cells: seq<Cell>, t: string)
    requires |cells| == |t| && forall j :: 0 <= j < |t| ==> cells[j] == Ch(t[j])
    ensures Chars(cells) == t
  {
  }
}
