/** The text of `X-Forwarded-For`: lines, entries, hosts and ports. A byte is a character below 256. */
module ForwardedFor {
  import opened Options
  import opened Decimal
  import opened Sequences

  type Header = (string, string)

  const FORWARDED_FOR := "x-forwarded-for"
  const MAX_PORT := 65535

  function LowerChar(c: char): char {
    if 'A' <= c <= 'Z' then (c as int + 32) as char else c
  }

  function Lower(s: string): string { seq(|s|, i requires 0 <= i < |s| => LowerChar(s[i])) }

  // ---- Collecting the lines ----

  function Values(headers: seq<Header>): seq<string> {
    if headers == [] then []
    else
      var before, last := Values(headers[..|headers| - 1]), headers[|headers| - 1];
      if Lower(last.0) == FORWARDED_FOR then before + [last.1] else before
  }

  /** The bytes of the lines, each with one separator. */
  function Total(values: seq<string>): nat {
    if values == [] then 0 else Total(values[..|values| - 1]) + |values[|values| - 1]| + 1
  }

  function Join(values: seq<string>): string {
    if values == [] then ""
    else if |values| == 1 then values[0]
    else Join(values[..|values| - 1]) + "," + values[|values| - 1]
  }

  /** A header counts as this one whatever the case of its ASCII letters, and under no other name. */
  lemma NameInAnyCase(name: string)
    ensures Lower(name) == FORWARDED_FOR
            <==> |name| == 15 && forall i :: 0 <= i < 15 ==>
                name[i] == "x-forwarded-for"[i] || name[i] == "X-FORWARDED-FOR"[i]
  {
    if Lower(name) == FORWARDED_FOR {
      assert |name| == |FORWARDED_FOR|;
      forall i | 0 <= i < 15 ensures name[i] == "x-forwarded-for"[i] || name[i] == "X-FORWARDED-FOR"[i] {
        assert LowerChar(name[i]) == Lower(name)[i];
      }
    }
  }

  predicate TooLarge(values: seq<string>, limit: int) { values != [] && Total(values) > limit }

  lemma {:induction false} TotalGrows(a: seq<string>, b: seq<string>)
    ensures Total(a + b) == Total(a) + Total(b)
  {
    if b == [] {
      assert a + b == a;
    } else {
      assert (a + b)[..|a + b| - 1] == a + b[..|b| - 1];
      TotalGrows(a, b[..|b| - 1]);
    }
  }

  lemma {:induction false} ValuesConcat(a: seq<Header>, b: seq<Header>)
    ensures Values(a + b) == Values(a) + Values(b)
  {
    if b == [] {
      assert a + b == a;
    } else {
      assert (a + b)[..|a + b| - 1] == a + b[..|b| - 1];
      ValuesConcat(a, b[..|b| - 1]);
    }
  }

  lemma OneValue(name: string, value: string)
    ensures Values([(name, value)]) == if Lower(name) == FORWARDED_FOR then [value] else []
  {
    assert [(name, value)][..0] == [];
  }

  /** Headers of other names are not read. */
  lemma OtherNamesIgnored(before: seq<Header>, name: string, value: string, after: seq<Header>)
    requires Lower(name) != FORWARDED_FOR
    ensures Values(before + [(name, value)] + after) == Values(before + after)
  {
    ValuesConcat(before + [(name, value)], after);
    ValuesConcat(before, [(name, value)]);
    ValuesConcat(before, after);
    OneValue(name, value);
  }

  /** Reading stops at the first line that goes past the limit, which is when all of them do. */
  method CollectHeader(headers: seq<Header>, limit: int) returns (r: Option<string>)
    ensures r == if TooLarge(Values(headers), limit) then None else Some(Join(Values(headers)))
  {
    var parts: seq<string> := [];
    var total := 0;
    var i := 0;
    while i < |headers|
      invariant i <= |headers| && parts == Values(headers[..i]) && total == Total(parts)
      invariant !TooLarge(parts, limit)
    {
      assert headers[..i + 1][..i] == headers[..i];
      var (name, value) := headers[i];
      if Lower(name) == FORWARDED_FOR {
        total := total + |value| + 1;
        assert (parts + [value])[..|parts|] == parts;
        if total > limit {
          assert headers == headers[..i + 1] + headers[i + 1..];
          ValuesConcat(headers[..i + 1], headers[i + 1..]);
          TotalGrows(Values(headers[..i + 1]), Values(headers[i + 1..]));
          return None;
        }
        parts := parts + [value];
      }
      i := i + 1;
    }
    assert headers[..i] == headers;
    return Some(Join(parts));
  }

  // ---- Entries ----

  predicate IsSpace(c: char) { c == ' ' || '\t' <= c <= '\r' }

  function TrimLeft(s: string): string {
    if s != "" && IsSpace(s[0]) then TrimLeft(s[1..]) else s
  }

  function TrimRight(s: string): string {
    if s != "" && IsSpace(s[|s| - 1]) then TrimRight(s[..|s| - 1]) else s
  }

  function Strip(s: string): string { TrimRight(TrimLeft(s)) }

  /** ASCII white space, as bytes are stripped of it. */
  predicate Blank(s: string) { forall i :: 0 <= i < |s| ==> s[i] in " \t\n\r\U{0b}\U{0c}" }

  predicate Bare(x: string) { x == "" || (!Blank(x[..1]) && !Blank(x[|x| - 1..])) }

  lemma SpaceIsBlank(c: char)
    ensures IsSpace(c) <==> Blank([c])
  {
    assert Blank([c]) ==> [c][0] in " \t\n\r\U{0b}\U{0c}";
    var six := " \t\n\r\U{0b}\U{0c}";
    assert forall i :: 0 <= i < 6 ==> IsSpace(six[i]);
    if IsSpace(c) {
      assert c in {six[0], six[1], six[2], six[3], six[4], six[5]};
    }
  }

  lemma {:induction false} TrimmedLeft(pre: string, x: string)
    requires Blank(pre) && (x == "" || !Blank(x[..1]))
    ensures TrimLeft(pre + x) == x
  {
    if pre == "" {
      assert pre + x == x;
      if x != "" {
        SpaceIsBlank(x[0]);
      }
    } else {
      SpaceIsBlank(pre[0]);
      assert (pre + x)[1..] == pre[1..] + x;
      TrimmedLeft(pre[1..], x);
    }
  }

  lemma {:induction false} TrimmedRight(x: string, post: string)
    requires Blank(post) && (x == "" || !Blank(x[|x| - 1..]))
    ensures TrimRight(x + post) == x
  {
    if post == "" {
      assert x + post == x;
      if x != "" {
        SpaceIsBlank(x[|x| - 1]);
      }
    } else {
      SpaceIsBlank(post[|post| - 1]);
      assert (x + post)[..|x + post| - 1] == x + post[..|post| - 1];
      TrimmedRight(x, post[..|post| - 1]);
    }
  }

  /** White space around a text goes, on both sides and all of it, and nothing else does. */
  lemma StripPadding(pre: string, x: string, post: string)
    requires Blank(pre) && Bare(x) && Blank(post)
    ensures Strip(pre + x + post) == x
  {
    if x == "" {
      assert pre + x + post == pre + post + "" && Blank(pre + post);
      TrimmedLeft(pre + post, "");
      TrimmedRight("", "");
    } else {
      assert pre + x + post == pre + (x + post) && (x + post)[..1] == x[..1];
      TrimmedLeft(pre, x + post);
      TrimmedRight(x, post);
    }
  }

  /** `raw.split(",")` */
  function Split(raw: string): (pieces: seq<string>)
    ensures |pieces| >= 1
    decreases |raw|
  {
    var i := IndexOf(raw, ',');
    if i < |raw| then [raw[..i]] + Split(raw[i + 1..]) else [raw]
  }

  function Filled(pieces: seq<string>): seq<string> {
    if pieces == [] then []
    else (if Strip(pieces[0]) != "" then [Strip(pieces[0])] else []) + Filled(pieces[1..])
  }

  /** The entries of one value, trimmed, without the empty ones. */
  function Entries(raw: string): seq<string> { Filled(Split(raw)) }

  lemma {:induction false} FilledConcat(a: seq<string>, b: seq<string>)
    ensures Filled(a + b) == Filled(a) + Filled(b)
  {
    if a == [] {
      assert a + b == b;
    } else {
      assert (a + b)[1..] == a[1..] + b;
      FilledConcat(a[1..], b);
    }
  }

  /** The first separator is the one after the text that has none. */
  lemma FindAfter(a: string, c: char, b: string)
    requires c !in a
    ensures var s := a + [c] + b; IndexOf(s, c) == |a| && s[..|a|] == a && s[|a| + 1..] == b
  {
    var s := a + [c] + b;
    assert s[|a|] == c;
    assert forall k :: 0 <= k < |a| ==> s[k] == a[k];
  }

  lemma SplitHead(head: string, rest: string)
    requires ',' !in head
    ensures Split(head + "," + rest) == [head] + Split(rest)
  {
    FindAfter(head, ',', rest);
  }

  lemma CommasAssociate(a: string, b: string, c: string)
    ensures a + "," + b + "," + c == a + "," + (b + "," + c)
  {
  }

  lemma CutAtFirst(x: string) returns (head: string, tail: string)
    requires ',' in x
    ensures x == head + "," + tail && ',' !in head && |tail| < |x|
  {
    var i := IndexOf(x, ',');
    head, tail := x[..i], x[i + 1..];
  }

  lemma SplitWhole(x: string)
    requires ',' !in x
    ensures Split(x) == [x]
  {
  }

  lemma {:induction false} SplitAtComma(x: string, y: string)
    ensures Split(x + "," + y) == Split(x) + Split(y)
    decreases |x|
  {
    if ',' in x {
      var head, tail := CutAtFirst(x);
      SplitAtComma(tail, y);
      CommasAssociate(head, tail, y);
      SplitHead(head, tail);
      SplitHead(head, tail + "," + y);
    } else {
      SplitWhole(x);
      SplitHead(x, y);
    }
  }

  lemma EntriesAtComma(x: string, y: string)
    ensures Entries(x + "," + y) == Entries(x) + Entries(y)
  {
    SplitAtComma(x, y);
    FilledConcat(Split(x), Split(y));
  }

  /** The entries of several lines in order. */
  function AllEntries(values: seq<string>): seq<string> {
    if values == [] then [] else AllEntries(values[..|values| - 1]) + Entries(values[|values| - 1])
  }

  lemma {:induction false} AllEntriesConcat(a: seq<string>, b: seq<string>)
    ensures AllEntries(a + b) == AllEntries(a) + AllEntries(b)
  {
    if b == [] {
      assert a + b == a;
    } else {
      var init, last := b[..|b| - 1], b[|b| - 1];
      assert (a + b)[..|a + b| - 1] == a + init && (a + b)[|a + b| - 1] == last;
      AllEntriesConcat(a, init);
      assert AllEntries(a + b) == AllEntries(a) + (AllEntries(init) + Entries(last));
    }
  }

  /** Joining the lines and splitting again reads every line's own entries. */
  lemma {:induction false} EntriesOfJoin(values: seq<string>)
    ensures Entries(Join(values)) == AllEntries(values)
  {
    if values == [] {
      assert Split("") == [""];
      assert Filled([""]) == [] by {
        assert [""][1..] == [];
      }
    } else if |values| == 1 {
      assert values[..0] == [];
    } else {
      EntriesOfJoin(values[..|values| - 1]);
      EntriesAtComma(Join(values[..|values| - 1]), values[|values| - 1]);
    }
  }

  /** The joined header is one byte shorter than what its lines count for. */
  lemma {:induction false} JoinSize(values: seq<string>)
    requires values != []
    ensures |Join(values)| + 1 == Total(values)
  {
    if |values| > 1 {
      JoinSize(values[..|values| - 1]);
    }
  }

  /** An entry as it may stand in a line: a text with white space on both sides. */
  datatype Padded = Padded(left: string, text: string, right: string)
  {
    predicate Valid() { Blank(left) && Bare(text) && ',' !in text && Blank(right) }
    function Shown(): string { left + text + right }
  }

  function Shown(pieces: seq<Padded>): seq<string> {
    seq(|pieces|, i requires 0 <= i < |pieces| => pieces[i].Shown())
  }

  /** The texts that are not empty, in order. */
  function Texts(pieces: seq<Padded>): seq<string> {
    if pieces == [] then []
    else Texts(pieces[..|pieces| - 1]) + OneText(pieces[|pieces| - 1].text)
  }

  function OneText(text: string): seq<string> { if text == "" then [] else [text] }

  lemma PaddedEntry(p: Padded)
    requires p.Valid()
    ensures Entries(p.Shown()) == OneText(p.text)
  {
    assert ',' !in p.Shown();
    SplitWhole(p.Shown());
    StripPadding(p.left, p.text, p.right);
    assert Filled([p.Shown()][1..]) == [];
  }

  lemma {:induction false} PaddedEntries(pieces: seq<Padded>)
    requires forall p | p in pieces :: p.Valid()
    ensures AllEntries(Shown(pieces)) == Texts(pieces)
  {
    if pieces != [] {
      var init := pieces[..|pieces| - 1];
      assert Shown(pieces)[..|pieces| - 1] == Shown(init);
      PaddedEntries(init);
      PaddedEntry(pieces[|pieces| - 1]);
    }
  }

  /** Texts joined by commas, with any white space around them, are read back as these texts in order. */
  lemma EntriesAreTheTexts(pieces: seq<Padded>)
    requires forall p | p in pieces :: p.Valid()
    ensures Entries(Join(Shown(pieces))) == Texts(pieces)
  {
    EntriesOfJoin(Shown(pieces));
    PaddedEntries(pieces);
  }

  lemma {:induction false} FullTexts(pieces: seq<Padded>)
    requires forall p | p in pieces :: p.text != ""
    ensures |Texts(pieces)| == |pieces| && forall i :: 0 <= i < |pieces| ==> Texts(pieces)[i] == pieces[i].text
  {
    if pieces != [] {
      FullTexts(pieces[..|pieces| - 1]);
    }
  }

  // ---- Hosts and ports ----

  datatype HostPort = HostPort(host: string, port: Option<nat>)

  function Count(s: string, c: char): nat {
    if s == "" then 0 else (if s[0] == c then 1 else 0) + Count(s[1..], c)
  }

  predicate AllDigits(s: string) { forall i :: 0 <= i < |s| ==> IsDigit(s[i]) }

  function WithPort(host: string, port: string): Option<HostPort> {
    if port == "" || !AllDigits(port) || Read(port) > MAX_PORT then None else Some(HostPort(host, Some(Read(port))))
  }

  function SplitHostPort(value: string): Option<HostPort> {
    if value != "" && value[0] == '[' then
      var end := IndexOf(value, ']');
      if end == |value| then None
      else
        var host, rest := value[1..end], value[end + 1..];
        if rest == "" then Some(HostPort(host, None))
        else if rest[0] != ':' then None
        else WithPort(host, rest[1..])
    else if Count(value, ':') == 1 then
      var i := IndexOf(value, ':');
      WithPort(value[..i], if i < |value| then value[i + 1..] else "")
    else Some(HostPort(value, None))
  }

  /** How a proxy writes an entry: a host with colons goes into brackets when a port follows. */
  function ShowEntry(e: HostPort): string {
    if e.port.None? then e.host
    else if ':' in e.host then "[" + e.host + "]:" + Show(e.port.value)
    else e.host + ":" + Show(e.port.value)
  }

  lemma {:induction false} CountNone(s: string, c: char)
    ensures Count(s, c) == 0 <==> c !in s
  {
    if s != "" {
      CountNone(s[1..], c);
      assert s == [s[0]] + s[1..];
    }
  }

  lemma {:induction false} CountConcat(a: string, b: string, c: char)
    ensures Count(a + b, c) == Count(a, c) + Count(b, c)
  {
    if a == "" {
      assert a + b == b;
    } else {
      assert (a + b)[1..] == a[1..] + b;
      CountConcat(a[1..], b, c);
    }
  }

  /** A host as addresses are written: no brackets, and no colon or at least two. */
  predicate HostText(host: string) {
    host != "" && host[0] != '[' && ']' !in host && Count(host, ':') != 1
  }

  lemma SplitBracketed(host: string, port: nat)
    requires ']' !in host && port <= MAX_PORT
    ensures SplitHostPort("[" + host + "]:" + Show(port)) == Some(HostPort(host, Some(port)))
  {
    var rest := ":" + Show(port);
    var text := "[" + host + "]:" + Show(port);
    assert text == ("[" + host) + [']'] + rest;
    FindAfter("[" + host, ']', rest);
    assert text[1..|host| + 1] == host && rest[1..] == Show(port);
    ReadShow(port);
  }

  lemma OneColon(a: string, b: string)
    requires ':' !in a && ':' !in b
    ensures Count(a + ":" + b, ':') == 1
  {
    CountNone(a, ':');
    CountNone(b, ':');
    CountConcat(a + ":", b, ':');
    CountConcat(a, ":", ':');
    assert Count(":", ':') == 1 + Count(":"[1..], ':');
  }

  lemma SplitPlain(host: string, port: nat)
    requires host != "" && host[0] != '[' && ':' !in host && port <= MAX_PORT
    ensures SplitHostPort(host + ":" + Show(port)) == Some(HostPort(host, Some(port)))
  {
    assert (host + ":" + Show(port))[0] == host[0];
    OneColon(host, Show(port));
    FindAfter(host, ':', Show(port));
    ReadShow(port);
  }

  /** What a proxy writes is read back, with or without a port. */
  lemma SplitShow(e: HostPort)
    requires HostText(e.host) && (e.port.Some? ==> e.port.value <= MAX_PORT)
    ensures SplitHostPort(ShowEntry(e)) == Some(e)
  {
    if e.port.Some? {
      if ':' in e.host {
        SplitBracketed(e.host, e.port.value);
      } else {
        SplitPlain(e.host, e.port.value);
      }
    }
  }
  predicate PortText(port: string) {
    port != "" && (forall i :: 0 <= i < |port| ==> '0' <= port[i] <= '9') && Read(port) <= 65535
  }

  /** After a plain host the port decides alone whether the entry is malformed. */
  lemma PlainPort(host: string, port: string)
    requires ':' !in host && ':' !in port && (host == "" || host[0] != '[')
    ensures SplitHostPort(host + ":" + port)
            == if PortText(port) then Some(HostPort(host, Some(Read(port)))) else None
  {
    OneColon(host, port);
    FindAfter(host, ':', port);
  }

  /** After a bracketed host either nothing follows or a colon and a port. */
  lemma BracketedPort(host: string, rest: string)
    requires ']' !in host
    ensures SplitHostPort("[" + host + "]" + rest)
            == if rest == "" then Some(HostPort(host, None))
               else if rest[0] == ':' && PortText(rest[1..]) then Some(HostPort(host, Some(Read(rest[1..]))))
               else None
  {
    var text := "[" + host + "]" + rest;
    FindAfter("[" + host, ']', rest);
    assert text[1..|host| + 1] == host;
  }

  lemma OpenBracket(value: string)
    requires value != "" && value[0] == '[' && ']' !in value
    ensures SplitHostPort(value) == None
  {
  }

  /** Without a colon, or with several, an unbracketed entry is the address itself. */
  lemma NoPort(value: string)
    requires (value == "" || value[0] != '[') && Count(value, ':') != 1
    ensures SplitHostPort(value) == Some(HostPort(value, None))
  {
  }
}
