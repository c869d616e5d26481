/** Recipient rows as JSON lines: the canonical encoding that the publisher
    writes (internal/publication/publisher.go) and that ParseRecipient insists on
    (internal/distribution/contracts.go), and the one length of row that the
    publisher accepts and the worker cannot read. */
module Rows {
  import opened Basics
  import opened Batches
  import Texts

  const MAX_ROW := 1024

  // ---- Valid recipients ----------------------------------------------------------

  predicate Lower(c: char) { 'a' <= c <= 'z' }

  predicate Letter(c: char) { Lower(c) || 'A' <= c <= 'Z' }

  predicate IsName(s: string) {
    && 1 <= |s| <= 64 && Letter(s[0])
    && forall i | 1 <= i < |s| :: Letter(s[i]) || s[i] in " .'-"
  }

  predicate LocalChar(c: char) { Lower(c) || IsDigit(c) || c in ".!#$%&'*+/=?^_`{|}~-" }

  predicate IsLabel(s: string) {
    && 1 <= |s| <= 63 && s[0] != '-' && s[|s| - 1] != '-'
    && forall i | 0 <= i < |s| :: Lower(s[i]) || IsDigit(s[i]) || s[i] == '-'
  }

  /** An address: a local part, and a domain of at least two labels. */
  ghost predicate IsEmail(s: string) {
    |s| <= 254 && exists local, domain :: IsAddress(s, local, domain)
  }

  ghost predicate IsAddress(s: string, local: string, domain: string) {
    && s == local + "@" + domain && local != "" && (forall i | 0 <= i < |local| :: LocalChar(local[i]))
    && var labels := Texts.Split('.', domain);
       |labels| >= 2 && forall i | 0 <= i < |labels| :: IsLabel(labels[i])
  }

  ghost predicate IsRecipient(r: Recipient) { IsEmail(r.email) && IsName(r.firstName) && IsName(r.lastName) }

  // ---- The encoding ----------------------------------------------------------------

  /** The encoder escapes the three characters that are special in HTML. */
  function EscapeChar(c: char): (s: string)
    ensures s != ""
  {
    if c == '&' then "\\u0026" else if c == '<' then "\\u003c" else if c == '>' then "\\u003e" else [c]
  }

  function Escape(s: string): string { if s == "" then "" else EscapeChar(s[0]) + Escape(s[1..]) }

  const OPEN := "{\"email\":\""
  const FIRST := ",\"first_name\":\""
  const LAST := ",\"last_name\":\""

  function EncodeRow(r: Recipient): string {
    OPEN + (Escape(r.email) + "\"" +
            (FIRST + (Escape(r.firstName) + "\"" +
                      (LAST + (Escape(r.lastName) + "\"" + "}")))))
  }

  /** ParseRecipient: strict decoding followed by the comparison with the
      canonical encoding accepts exactly the encodings of valid recipients, up to
      the size limit. */
  ghost function ParseRow(line: string): Option<Recipient> {
    if |line| <= MAX_ROW && exists r :: IsRecipient(r) && EncodeRow(r) == line
    then
      var r :| IsRecipient(r) && EncodeRow(r) == line;
      Some(r)
    else None
  }

  ghost function RowCodec(): Codec { Codec(EncodeRow, ParseRow) }

  // ---- The encoding is injective ----------------------------------------------------

  /** Printable text without quotes and backslashes. */
  predicate Plain(s: string) { forall i | 0 <= i < |s| :: PlainChar(s[i]) }

  predicate PlainChar(c: char) { 0x20 <= c as int < 0x7f && c != '"' && c != '\\' }

  lemma {:induction false} EscapeIsQuoteFree(s: string)
    requires Plain(s)
    ensures forall i | 0 <= i < |Escape(s)| :: Escape(s)[i] != '"' && 0x20 <= Escape(s)[i] as int < 0x7f
  {
    if s != "" {
      assert PlainChar(s[0]);
      assert forall i | 0 <= i < |s| - 1 :: s[1..][i] == s[i + 1];
      EscapeIsQuoteFree(s[1..]);
      assert forall i | 0 <= i < |EscapeChar(s[0])| ::
        EscapeChar(s[0])[i] != '"' && 0x20 <= EscapeChar(s[0])[i] as int < 0x7f;
    }
  }

  lemma HeadsAgree(c: char, x: string, d: char, y: string)
    requires PlainChar(c) && PlainChar(d) && EscapeChar(c) + x == EscapeChar(d) + y
    ensures c == d && x == y
  {
    var a, b := EscapeChar(c), EscapeChar(d);
    assert (a + x)[0] == (b + y)[0];
    assert a[0] == b[0];
    if |a| == 6 {
      assert (a + x)[4] == (b + y)[4] && (a + x)[5] == (b + y)[5];
      assert a[4] == b[4] && a[5] == b[5];
    }
    assert a == b;
    assert (a + x)[|a|..] == x && (b + y)[|b|..] == y;
  }

  lemma {:induction false} EscapeIsInjective(s: string, t: string)
    requires Plain(s) && Plain(t) && Escape(s) == Escape(t)
    ensures s == t
  {
    if s != "" && t != "" {
      assert PlainChar(s[0]) && PlainChar(t[0]);
      HeadsAgree(s[0], Escape(s[1..]), t[0], Escape(t[1..]));
      assert forall i | 0 <= i < |s| - 1 :: s[1..][i] == s[i + 1];
      assert forall i | 0 <= i < |t| - 1 :: t[1..][i] == t[i + 1];
      EscapeIsInjective(s[1..], t[1..]);
      assert s == [s[0]] + s[1..] && t == [t[0]] + t[1..];
    }
  }

  /** Text up to the first quote is determined. */
  lemma {:induction false} QuoteSplits(a: string, x: string, b: string, y: string)
    requires a + "\"" + x == b + "\"" + y && '"' !in a && '"' !in b
    ensures a == b && x == y
  {
    var s, t := a + "\"" + x, b + "\"" + y;
    assert s[0] == if a == "" then '"' else a[0];
    assert t[0] == if b == "" then '"' else b[0];
    if a == "" {
      assert s[1..] == x && t[1..] == y;
    } else {
      assert s[1..] == a[1..] + "\"" + x && t[1..] == b[1..] + "\"" + y;
      QuoteSplits(a[1..], x, b[1..], y);
      assert a == [a[0]] + a[1..] && b == [b[0]] + b[1..];
    }
  }

  lemma NamesArePlain(s: string)
    requires IsName(s)
    ensures Plain(s)
  {}

  lemma LabelsArePlain(domain: string, i: nat)
    requires i < |domain| && var labels := Texts.Split('.', domain); forall k | 0 <= k < |labels| :: IsLabel(labels[k])
    ensures PlainChar(domain[i])
    decreases |domain|
  {
    Texts.SplitChars('.', domain, i);
  }

  lemma EmailsArePlain(s: string)
    requires IsEmail(s)
    ensures Plain(s)
  {
    var local, domain :| IsAddress(s, local, domain);
    forall i | 0 <= i < |s|
      ensures PlainChar(s[i])
    {
      if i < |local| {
        assert LocalChar(local[i]);
      } else if i > |local| {
        LabelsArePlain(domain, i - |local| - 1);
      }
    }
  }

  lemma SuffixesAgree(p: string, x: string, y: string)
    requires p + x == p + y
    ensures x == y
  {
    assert (p + x)[|p|..] == x && (p + y)[|p|..] == y;
  }

  lemma EncodingIsInjective(r: Recipient, t: Recipient)
    requires IsRecipient(r) && IsRecipient(t) && EncodeRow(r) == EncodeRow(t)
    ensures r == t
  {
    hide Escape, IsEmail, IsName;
    FieldsArePlain(r);
    FieldsArePlain(t);
    var re, rf, rl := Escape(r.email), Escape(r.firstName), Escape(r.lastName);
    var te, tf, tl := Escape(t.email), Escape(t.firstName), Escape(t.lastName);
    var r2, t2 := LAST + (rl + "\"" + "}"), LAST + (tl + "\"" + "}");
    var r1, t1 := FIRST + (rf + "\"" + r2), FIRST + (tf + "\"" + t2);
    SuffixesAgree(OPEN, re + "\"" + r1, te + "\"" + t1);
    QuoteSplits(re, r1, te, t1);
    SuffixesAgree(FIRST, rf + "\"" + r2, tf + "\"" + t2);
    QuoteSplits(rf, r2, tf, t2);
    SuffixesAgree(LAST, rl + "\"" + "}", tl + "\"" + "}");
    QuoteSplits(rl, "}", tl, "}");
    EscapeIsInjective(r.email, t.email);
    EscapeIsInjective(r.firstName, t.firstName);
    EscapeIsInjective(r.lastName, t.lastName);
  }

  lemma FieldsArePlain(r: Recipient)
    requires IsRecipient(r)
    ensures Plain(r.email) && Plain(r.firstName) && Plain(r.lastName)
    ensures '"' !in Escape(r.email) && '"' !in Escape(r.firstName) && '"' !in Escape(r.lastName)
  {
    EmailsArePlain(r.email);
    NamesArePlain(r.firstName);
    NamesArePlain(r.lastName);
    EscapeIsQuoteFree(r.email);
    EscapeIsQuoteFree(r.firstName);
    EscapeIsQuoteFree(r.lastName);
  }

  // ---- Reading a field off the text ----------------------------------------------------

  /** What a JSON string spells, as far as the encoder's escapes go. */
  function Unescape(s: string): string
    decreases |s|
  {
    if s == "" then ""
    else if |s| >= 6 && s[..6] == "\\u0026" then "&" + Unescape(s[6..])
    else if |s| >= 6 && s[..6] == "\\u003c" then "<" + Unescape(s[6..])
    else if |s| >= 6 && s[..6] == "\\u003e" then ">" + Unescape(s[6..])
    else [s[0]] + Unescape(s[1..])
  }

  lemma {:induction false} UnescapeOfEscape(s: string)
    requires Plain(s)
    ensures Unescape(Escape(s)) == s
  {
    if s != "" {
      var e, rest := EscapeChar(s[0]), Escape(s[1..]);
      assert PlainChar(s[0]);
      assert forall i | 0 <= i < |s| - 1 :: s[1..][i] == s[i + 1];
      UnescapeOfEscape(s[1..]);
      assert Escape(s) == e + rest && (e + rest)[|e|..] == rest && (e + rest)[..|e|] == e;
      if |e| == 1 && |Escape(s)| >= 6 { assert Escape(s)[..6][0] == s[0] != '\\'; }
      assert s == [s[0]] + s[1..];
    }
  }

  /** The value that the line gives to `key`: a line is cut at its quotes, and a
      value stands two places after its key. */
  function ValueAt(line: string, key: string): Option<string> {
    var parts := Texts.Split('"', line);
    if |parts| != 13 then None
    else if parts[1] == key && parts[2] == ":" then Some(Unescape(parts[3]))
    else if parts[5] == key && parts[6] == ":" then Some(Unescape(parts[7]))
    else if parts[9] == key && parts[10] == ":" then Some(Unescape(parts[11]))
    else None
  }

  function RowParts(r: Recipient): (parts: seq<string>)
    ensures |parts| == 13
  {
    ["{", "email", ":", Escape(r.email), ",", "first_name", ":", Escape(r.firstName), ",", "last_name", ":",
     Escape(r.lastName), "}"]
  }

  lemma RowIsJoined(r: Recipient)
    ensures EncodeRow(r) == Texts.Join('"', RowParts(r))
  {
    hide Escape, Texts.Join;
    var p := RowParts(r);
    Keys();
    JoinEnd(p);
    JoinOne(p, 11);
    JoinFour(p, 8);
    JoinOne(p, 7);
    JoinFour(p, 4);
    JoinOne(p, 3);
    JoinFour(p, 0);
    assert p[0..] == p;
  }

  lemma Keys()
    ensures OPEN == "{" + "\"" + "email" + "\"" + ":" + "\""
    ensures FIRST == "," + "\"" + "first_name" + "\"" + ":" + "\""
    ensures LAST == "," + "\"" + "last_name" + "\"" + ":" + "\""
  {}

  lemma JoinEnd(p: seq<string>)
    requires |p| > 0
    ensures Texts.Join('"', p[|p| - 1..]) == p[|p| - 1]
  {}

  lemma JoinOne(p: seq<string>, i: nat)
    requires i + 1 < |p|
    ensures Texts.Join('"', p[i..]) == p[i] + "\"" + Texts.Join('"', p[i + 1..])
  {
    assert p[i..][1..] == p[i + 1..] && p[i..][0] == p[i];
  }

  /** A key with what stands around it. */
  lemma JoinFour(p: seq<string>, i: nat)
    requires i + 3 < |p|
    ensures Texts.Join('"', p[i..]) == (p[i] + "\"" + p[i + 1] + "\"" + p[i + 2] + "\"") + Texts.Join('"', p[i + 3..])
  {
    JoinOne(p, i);
    JoinOne(p, i + 1);
    JoinOne(p, i + 2);
  }

  /** The line of a valid recipient gives its address, first name and last name to
      the keys of those names. */
  lemma FieldsAreNamed(r: Recipient)
    requires IsRecipient(r)
    ensures ValueAt(EncodeRow(r), "email") == Some(r.email)
    ensures ValueAt(EncodeRow(r), "first_name") == Some(r.firstName)
    ensures ValueAt(EncodeRow(r), "last_name") == Some(r.lastName)
  {
    hide IsRecipient, Escape, Unescape, EncodeRow, Texts.Split, Texts.Join;
    FieldsArePlain(r);
    RowIsJoined(r);
    Texts.SplitOfJoin('"', RowParts(r));
    UnescapeOfEscape(r.email);
    UnescapeOfEscape(r.firstName);
    UnescapeOfEscape(r.lastName);
  }

  // ---- What the publisher accepts and the worker reads -------------------------------

  /** The publisher's own check of a recipient: its encoding parses. */
  ghost predicate Accepted(r: Recipient) { ParseRow(EncodeRow(r)) == Some(r) }

  /** It accepts exactly the valid recipients of at most 1024 encoded bytes, and
      every accepted one fills one line that parses back to it. */
  lemma AcceptedExactly(r: Recipient)
    ensures Accepted(r) <==> IsRecipient(r) && |EncodeRow(r)| <= MAX_ROW
    ensures Accepted(r) ==> Encodes(RowCodec(), r)
  {
    hide EncodeRow, IsRecipient;
    if IsRecipient(r) && |EncodeRow(r)| <= MAX_ROW {
      var t := ParseRow(EncodeRow(r)).value;
      EncodingIsInjective(r, t);
    }
    if Accepted(r) { OneLine(r); }
  }

  lemma OneLine(r: Recipient)
    requires IsRecipient(r)
    ensures var line := EncodeRow(r);
      line != "" && line[|line| - 1] == '}' && forall i | 0 <= i < |line| :: line[i] != '\n'
  {
    hide IsRecipient, Escape;
    FieldsArePlain(r);
    EscapeIsQuoteFree(r.email);
    EscapeIsQuoteFree(r.firstName);
    EscapeIsQuoteFree(r.lastName);
  }

  /** An accepted batch cannot be read back if and only if one of its rows is
      exactly 1024 bytes long. */
  lemma UnreadableExactly(rs: seq<Recipient>)
    requires rs != [] && forall i | 0 <= i < |rs| :: Accepted(rs[i])
    ensures ScanBatch(ParseRow, Body(RowCodec(), rs)) == None <==>
      exists i :: 0 <= i < |rs| && |EncodeRow(rs[i])| == MAX_ROW
    ensures ScanBatch(ParseRow, Body(RowCodec(), rs)) == Some(rs) <==>
      forall i | 0 <= i < |rs| :: |EncodeRow(rs[i])| < MAX_ROW
  {
    hide EncodeRow, IsRecipient, Encodes, Accepted;
    forall i | 0 <= i < |rs|
      ensures Encodes(RowCodec(), rs[i]) && |EncodeRow(rs[i])| <= MAX_ROW
    {
      AcceptedExactly(rs[i]);
    }
    ReadBackNeedsRoom(RowCodec(), rs);
  }

  // ---- One such row --------------------------------------------------------------------

  function Repeat(c: char, n: nat): (s: string)
    ensures |s| == n && forall i | 0 <= i < n :: s[i] == c
  {
    if n == 0 then "" else [c] + Repeat(c, n - 1)
  }

  lemma {:induction false} EscapeOfRepeat(n: nat, rest: string)
    ensures |Escape(Repeat('&', n) + rest)| == 6 * n + |Escape(rest)|
  {
    if n == 0 {
      assert Repeat('&', 0) + rest == rest;
    } else {
      EscapeOfRepeat(n - 1, rest);
      assert (Repeat('&', n) + rest)[1..] == Repeat('&', n - 1) + rest;
    }
  }

  lemma {:induction false} EscapeOfOthers(s: string)
    requires forall i | 0 <= i < |s| :: s[i] !in "&<>"
    ensures Escape(s) == s
  {
    if s != "" {
      assert forall i | 0 <= i < |s| - 1 :: s[1..][i] == s[i + 1];
      EscapeOfOthers(s[1..]);
      assert s == [s[0]] + s[1..];
    }
  }

  /** `n` ampersands, each six bytes in the encoding, at a domain of `m + 2` bytes. */
  function WideRecipient(n: nat, m: nat): Recipient {
    Recipient(Repeat('&', n) + ("@" + (Repeat('a', m) + ".b")), "A", "B")
  }

  lemma WideIsValid(n: nat, m: nat)
    requires 1 <= n && 1 <= m <= 63 && n + m + 3 <= 254
    ensures IsRecipient(WideRecipient(n, m))
  {
    hide Repeat;
    var local, host := Repeat('&', n), Repeat('a', m);
    var domain := host + ".b";
    assert domain == host + "." + "b";
    Texts.SplitOfPart('.', host, "b");
    Texts.SplitOfPart('.', "b", "");
    var email := WideRecipient(n, m).email;
    assert email == local + "@" + domain;
    assert IsAddress(email, local, domain);
  }

  lemma WideLength(n: nat, m: nat)
    ensures |EncodeRow(WideRecipient(n, m))| == 6 * n + m + 48
  {
    hide Repeat, Escape;
    var rest := "@" + (Repeat('a', m) + ".b");
    EscapeOfOthers(rest);
    EscapeOfRepeat(n, rest);
    EscapeOfOthers("A");
    EscapeOfOthers("B");
    assert |OPEN| == 10 && |FIRST| == 15 && |LAST| == 14;
  }

  /** There are rows that the publisher accepts and the worker cannot read, for
      example 160 ampersands at a domain of 18 bytes. */
  lemma SomeRowIsUnreadable() returns (r: Recipient)
    ensures r == WideRecipient(160, 16)
    ensures Accepted(r) && |EncodeRow(r)| == MAX_ROW && ScanBatch(ParseRow, Body(RowCodec(), [r])) == None
  {
    hide Repeat, Escape, EncodeRow, IsRecipient, Accepted, Body, ScanBatch;
    r := WideRecipient(160, 16);
    WideIsValid(160, 16);
    WideLength(160, 16);
    AcceptedExactly(r);
    assert |EncodeRow([r][0])| == MAX_ROW;
    UnreadableExactly([r]);
  }
}
