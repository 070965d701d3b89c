/** The decoded feed (main.go:18-25) and the notification text built from
    its newest item (main.go:110-111). */
module Feed {

  import opened Wrappers

  /** One `recent-post` element of the feed. */
  datatype Item = Item(id: string, subject: string, body: string, link: string)

  /** What `fetchFeed` hands back: either a decoded feed whose items are in
      document order, or the error of the GET, the body read or the XML
      decoder. Go returns a nil feed together with every error. */
  datatype FetchResult = Fetched(items: seq<Item>) | FetchFailed(reason: string)

  const UpdatePrefix: string := "New update: "

  /** The text posted to every destination: subject, link and body on
      consecutive lines after the fixed prefix. */
  function FormatMessage(item: Item): (msg: string)
    ensures |msg| == |UpdatePrefix| + |item.subject| + |item.link| + |item.body| + 2
    ensures msg[..|UpdatePrefix|] == UpdatePrefix
    ensures msg[|UpdatePrefix| + |item.subject|] == '\n'
    ensures msg[|UpdatePrefix| + |item.subject| + 1 + |item.link|] == '\n'
    ensures msg[|UpdatePrefix|..|UpdatePrefix| + |item.subject|] == item.subject
    ensures msg[|UpdatePrefix| + |item.subject| + 1..|UpdatePrefix| + |item.subject| + 1 + |item.link|] == item.link
    ensures msg[|UpdatePrefix| + |item.subject| + |item.link| + 2..] == item.body
  {
    UpdatePrefix + item.subject + "\n" + item.link + "\n" + item.body
  }

  /** The three fields a receiver reads back out of a notification. */
  datatype Parts = Parts(subject: string, link: string, body: string)

  /** Position of the first line break of `s`, or `|s|` if there is none. */
  function FirstNewline(s: string): (k: nat)
    ensures k <= |s|
    ensures forall j :: 0 <= j < k ==> s[j] != '\n'
    ensures k < |s| ==> s[k] == '\n'
  {
    if |s| == 0 then 0
    else if s[0] == '\n' then 0
    else 1 + FirstNewline(s[1..])
  }

  /** Splits off the first line of `s`; `None` when `s` holds no line break. */
  function SplitLine(s: string): Option<(string, string)>
  {
    var k := FirstNewline(s);
    if k == |s| then None else Some((s[..k], s[k + 1..]))
  }

  /** The text after the fixed prefix; `None` when `msg` does not start with it. */
  function StripPrefix(msg: string): (r: Option<string>)
    ensures r.Some? ==> msg == UpdatePrefix + r.value
  {
    if |msg| < |UpdatePrefix| || msg[..|UpdatePrefix|] != UpdatePrefix then None
    else
      assert msg == msg[..|UpdatePrefix|] + msg[|UpdatePrefix|..];
      Some(msg[|UpdatePrefix|..])
  }

  /** Reading a notification the way a receiver would: drop the prefix, the
      subject runs to the first line break, the link to the second, the
      body is the rest. */
  function ParseMessage(msg: string): Option<Parts>
  {
    match StripPrefix(msg)
    case None => None
    case Some(rest) =>
      match SplitLine(rest)
      case None => None
      case Some((subject, tail)) =>
        match SplitLine(tail)
        case None => None
        case Some((link, body)) => Some(Parts(subject, link, body))
  }

  /** Joining a single line to a remainder and splitting again gives both back. */
  lemma SplitLineJoin(a: string, b: string)
    requires '\n' !in a
    ensures SplitLine(a + "\n" + b) == Some((a, b))
  {
    var s := a + "\n" + b;
    assert s[|a|] == '\n';
    var k := FirstNewline(s);
    assert k == |a|;
    assert s[..k] == a;
    assert s[k + 1..] == b;
  }

  /** Whatever `SplitLine` returns joins back into its input. */
  lemma SplitLineInverse(s: string, a: string, b: string)
    requires SplitLine(s) == Some((a, b))
    ensures '\n' !in a
    ensures s == a + "\n" + b
  {
  }

  /** Formatting loses nothing when subject and link are single lines: the
      receiver recovers all three fields. */
  lemma {:induction false} ParseFormat(item: Item)
    requires '\n' !in item.subject && '\n' !in item.link
    ensures ParseMessage(FormatMessage(item)) == Some(Parts(item.subject, item.link, item.body))
  {
    var msg := FormatMessage(item);
    var tail := item.link + "\n" + item.body;
    var rest := item.subject + "\n" + tail;
    assert msg == UpdatePrefix + rest;
    assert msg[..|UpdatePrefix|] == UpdatePrefix;
    assert StripPrefix(msg) == Some(rest);
    SplitLineJoin(item.subject, tail);
    SplitLineJoin(item.link, item.body);
  }

  /** Regrouping a five-part concatenation. */
  lemma JoinAssociates<T>(prefix: seq<T>, a: seq<T>, sep: seq<T>, b: seq<T>, c: seq<T>)
    ensures prefix + (a + sep + (b + sep + c)) == prefix + a + sep + b + sep + c
  {
  }

  /** Conversely, every text a receiver can read is the formatting of the
      fields it reads, and those fields are single lines where they must be. */
  lemma {:induction false} FormatParse(msg: string, p: Parts)
    requires ParseMessage(msg) == Some(p)
    ensures '\n' !in p.subject && '\n' !in p.link
    ensures FormatMessage(Item("", p.subject, p.body, p.link)) == msg
  {
    var rest := StripPrefix(msg).value;
    var (subject, tail) := SplitLine(rest).value;
    var (link, body) := SplitLine(tail).value;
    assert Parts(subject, link, body) == p;
    SplitLineInverse(rest, subject, tail);
    SplitLineInverse(tail, link, body);
    JoinAssociates(UpdatePrefix, subject, "\n", link, body);
  }
}
