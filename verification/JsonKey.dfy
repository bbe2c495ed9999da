// grok-mobile-belmont-pwa/src/send-intent-journal.ts: the journal key of a conversation, which is the
// JSON text of an array of two members.

module JsonKey {
  import opened Common

  const HEX := "0123456789abcdef"

  /** A character of a JSON string, as JSON.stringify writes it. */
  function Escape(c: char): string {
    if c == '"' then "\\\""
    else if c == '\\' then "\\\\"
    else if c == '\U{8}' then "\\b"
    else if c == '\U{C}' then "\\f"
    else if c == '\n' then "\\n"
    else if c == '\r' then "\\r"
    else if c == '\t' then "\\t"
    else if c < ' ' then "\\u00" + [HEX[c as int / 16], HEX[c as int % 16]]
    else [c]
  }

  function Body(s: string): string {
    if s == "" then "" else Escape(s[0]) + Body(s[1..])
  }

  function Quote(s: string): string {
    "\"" + Body(s) + "\""
  }

  function ScopeKey(botId: string, replyToId: Option<string>): string {
    "[" + Quote(botId) + "," + (if replyToId.None? then "null" else Quote(replyToId.value)) + "]"
  }

  // ----- reading a key back -----

  function HexValue(c: char): Option<int> {
    if '0' <= c <= '9' then Some(c as int - '0' as int)
    else if 'a' <= c <= 'f' then Some(c as int - 'a' as int + 10)
    else None
  }

  /** The first character of the rest of a JSON string, and what follows it. */
  function ReadChar(s: string): (r: Option<(char, string)>)
    ensures r.Some? ==> |r.value.1| < |s|
  {
    if s == "" || s[0] == '"' || s[0] < ' ' then None
    else if s[0] != '\\' then Some((s[0], s[1..]))
    else if |s| < 2 then None
    else if s[1] == '"' || s[1] == '\\' then Some((s[1], s[2..]))
    else if s[1] == 'b' then Some(('\U{8}', s[2..]))
    else if s[1] == 'f' then Some(('\U{C}', s[2..]))
    else if s[1] == 'n' then Some(('\n', s[2..]))
    else if s[1] == 'r' then Some(('\r', s[2..]))
    else if s[1] == 't' then Some(('\t', s[2..]))
    else if && s[1] == 'u' && |s| >= 6 && s[2] == '0' && s[3] == '0'
            && HexValue(s[4]).Some? && HexValue(s[5]).Some? then
      Some(((HexValue(s[4]).value * 16 + HexValue(s[5]).value) as char, s[6..]))
    else None
  }

  /** A JSON string after its opening quote, and what follows its closing one. */
  function ReadBody(s: string): Option<(string, string)>
    decreases |s|
  {
    if s != "" && s[0] == '"' then Some(("", s[1..]))
    else
      var first := ReadChar(s);
      if first.None? then None
      else
        var rest := ReadBody(first.value.1);
        if rest.None? then None else Some(([first.value.0] + rest.value.0, rest.value.1))
  }

  lemma ReadEscape(c: char, more: string)
    ensures ReadChar(Escape(c) + more) == Some((c, more))
    ensures (Escape(c) + more)[0] != '"'
  {
    var s := Escape(c) + more;
    assert s[|Escape(c)|..] == more;
    if c < ' ' && |Escape(c)| == 6 {
      HexRoundTrip(c as int / 16);
      HexRoundTrip(c as int % 16);
      assert (c as int / 16 * 16 + c as int % 16) as char == c;
    }
  }

  lemma HexRoundTrip(n: int)
    requires 0 <= n < 16
    ensures HexValue(HEX[n]) == Some(n)
  {
  }

  lemma ReadMore(s: string, c: char, more: string, text: string, rest: string)
    requires s != "" && s[0] != '"' && ReadChar(s) == Some((c, more)) && ReadBody(more) == Some((text, rest))
    ensures ReadBody(s) == Some(([c] + text, rest))
  {
  }

  lemma {:induction false} ReadBodyOfString(s: string, more: string)
    ensures ReadBody(Body(s) + ("\"" + more)) == Some((s, more))
  {
    var closed := "\"" + more;
    if s == "" {
      assert Body(s) + closed == closed && closed[1..] == more;
    } else {
      var rest := Body(s[1..]) + closed;
      assert Body(s) + closed == Escape(s[0]) + rest;
      ReadBodyOfString(s[1..], more);
      hide ReadBody, ReadChar, Body, Escape;
      ReadEscape(s[0], rest);
      ReadMore(Body(s) + closed, s[0], rest, s[1..], more);
      assert [s[0]] + s[1..] == s;
    }
  }

  function ReadKey(key: string): Option<(string, Option<string>)> {
    if |key| < 2 || key[0] != '[' || key[1] != '"' then None
    else
      var bot := ReadBody(key[2..]);
      if bot.None? then None
      else if bot.value.1 == ",null]" then Some((bot.value.0, None))
      else if |bot.value.1| < 2 || bot.value.1[0] != ',' || bot.value.1[1] != '"' then None
      else
        var reply := ReadBody(bot.value.1[2..]);
        if reply.None? || reply.value.1 != "]" then None else Some((bot.value.0, Some(reply.value.0)))
  }

  function KeyTail(replyToId: Option<string>): string {
    "," + (if replyToId.None? then "null" else Quote(replyToId.value)) + "]"
  }

  lemma QuoteSplits(s: string, more: string)
    ensures |Quote(s) + more| > 1 && (Quote(s) + more)[0] == '"' && (Quote(s) + more)[1..] == Body(s) + ("\"" + more)
  {
    hide Body;
  }

  lemma TailReadsBack(replyToId: Option<string>)
    ensures var tail := KeyTail(replyToId);
            if replyToId.None? then tail == ",null]"
            else |tail| > 2 && tail[0] == ',' && tail[1] == '"' && ReadBody(tail[2..]) == Some((replyToId.value, "]"))
  {
    if replyToId.Some? {
      var tail := KeyTail(replyToId);
      assert tail == "," + (Quote(replyToId.value) + "]");
      hide Quote, ReadBody;
      QuoteSplits(replyToId.value, "]");
      ReadBodyOfString(replyToId.value, "]");
      assert tail[2..] == (Quote(replyToId.value) + "]")[1..];
    }
  }

  /** A key can be read back, so that two conversations never share one. */
  lemma KeyReadsBack(botId: string, replyToId: Option<string>)
    ensures ReadKey(ScopeKey(botId, replyToId)) == Some((botId, replyToId))
  {
    hide Quote, ReadBody;
    var key, tail := ScopeKey(botId, replyToId), KeyTail(replyToId);
    assert key == "[" + (Quote(botId) + tail);
    QuoteSplits(botId, tail);
    assert key[2..] == (Quote(botId) + tail)[1..];
    ReadBodyOfString(botId, tail);
    TailReadsBack(replyToId);
    hide KeyTail, ScopeKey;
  }

  lemma KeysDiffer(botId: string, replyToId: Option<string>, otherBot: string, otherReply: Option<string>)
    ensures ScopeKey(botId, replyToId) == ScopeKey(otherBot, otherReply) <==> botId == otherBot && replyToId == otherReply
  {
    KeyReadsBack(botId, replyToId);
    KeyReadsBack(otherBot, otherReply);
  }
}
