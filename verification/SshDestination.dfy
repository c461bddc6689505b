/** username@host destinations: validation, canonical form and printing.

    IPv6 text is left to the Go library: `Lib.ip6` stands for net.ParseIP on text
    with a colon before any dot. */
module SshDestination {
  import opened Text

  /** net.ParseIP and its String: not an address, or the canonical text. */
  datatype IP = NotIP | V4(text: string) | V6(text: string)

  datatype Lib = Lib(ip6: string -> IP)

  datatype Error = BadForm | BadUsername | BadHost | NeedsBrackets | NotIPv6

  datatype Result<+T> = Ok(value: T) | Err(error: Error)

  datatype Target = Target(username: string, host: string)

  predicate Digit(c: char) { '0' <= c <= '9' }
  predicate Letter(c: char) { 'a' <= c <= 'z' || 'A' <= c <= 'Z' }
  predicate Alnum(c: char) { Digit(c) || Letter(c) }

  predicate ValidUsername(s: string) {
    && 1 <= |s| <= 64 && (Alnum(s[0]) || s[0] == '_')
    && forall c | c in s :: Alnum(c) || c in "._-"
  }

  predicate ValidLabel(s: string) {
    && 1 <= |s| <= 63 && Alnum(s[0]) && Alnum(s[|s| - 1])
    && forall c | c in s :: Alnum(c) || c == '-'
  }

  predicate NumericHost(s: string) {
    |s| >= 1 && forall c | c in s :: Digit(c) || c == '.'
  }

  /** The index of the first c, or the length. */
  function IndexOf(s: string, c: char): (i: nat)
    ensures i <= |s| && c !in s[..i] && (i < |s| ==> s[i] == c)
  {
    if |s| == 0 || s[0] == c then 0 else
      var j := IndexOf(s[1..], c);
      assert s[..1 + j] == [s[0]] + s[1..][..j];
      1 + j
  }

  function Split(s: string): seq<string>
    decreases |s|
  {
    var i := IndexOf(s, '.');
    if i == |s| then [s] else [s[..i]] + Split(s[i + 1..])
  }

  /** strings.Count(s, "@") */
  function Count(s: string): nat {
    if |s| == 0 then 0 else (if s[0] == '@' then 1 else 0) + Count(s[1..])
  }

  function LowerChar(c: char): char {
    if 'A' <= c <= 'Z' then (c as int + 32) as char else c
  }

  function Lower(s: string): (r: string)
    ensures |r| == |s| && forall i | 0 <= i < |s| :: r[i] == LowerChar(s[i])
  {
    seq(|s|, i requires 0 <= i < |s| => LowerChar(s[i]))
  }

  /** One dotted-quad field: no leading zero, at most 255. */
  predicate Octet(s: string) {
    && 1 <= |s| <= 3 && (forall c | c in s :: Digit(c))
    && (|s| > 1 ==> s[0] != '0')
    && (|s| == 3 ==> s[0] == '1' || (s[0] == '2' && (s[1] < '5' || (s[1] == '5' && s[2] <= '5'))))
  }

  /** An IPv4 address prints as the only text that parses to it. */
  predicate DottedQuad(s: string) {
    var f := Split(s);
    |f| == 4 && forall i | 0 <= i < 4 :: Octet(f[i])
  }

  function ParseIP(lib: Lib, s: string): IP {
    var dot, colon := IndexOf(s, '.'), IndexOf(s, ':');
    if colon < dot then lib.ip6(s)
    else if DottedQuad(s) then V4(s) else NotIP
  }

  /** What is assumed of the library's IPv6 text: canonical text parses to
      itself and is short, lower-case hexadecimal with colons. */
  ghost predicate Lawful(lib: Lib) {
    forall s :: match lib.ip6(s)
      case NotIP => true
      case V4(c) => DottedQuad(c)
      case V6(c) => lib.ip6(c) == V6(c) && 2 <= |c| <= 39 && ':' in c
                    && forall x | x in c :: Digit(x) || 'a' <= x <= 'f' || x == ':'
  }

  predicate Labels(s: string) {
    var f := Split(s);
    forall i | 0 <= i < |f| :: ValidLabel(f[i])
  }

  function CanonicalHost(lib: Lib, host: string): Result<string> {
    if host == "" || host[0] == '-' then Err(BadHost)
    else if host[0] == '[' || host[|host| - 1] == ']' then
      if |host| < 3 || host[0] != '[' || host[|host| - 1] != ']' then Err(NeedsBrackets)
      else match ParseIP(lib, host[1..|host| - 1])
        case V6(c) => Ok(c)
        case _ => Err(NotIPv6)
    else match ParseIP(lib, host)
      case V6(_) => Err(NeedsBrackets)
      case V4(c) => Ok(c)
      case NotIP =>
        if ':' in host then Err(NeedsBrackets)
        else if |host| > 253 || NumericHost(host) then Err(BadHost)
        else
          var trimmed := if host[|host| - 1] == '.' then host[..|host| - 1] else host;
          if trimmed == "" || |trimmed| > 253 || !Labels(trimmed) then Err(BadHost) else Ok(Lower(trimmed))
  }

  function Parse(lib: Lib, d: string): Result<Target> {
    if ByteLength(d) > 384 || Trim(d) != d || Count(d) != 1 then Err(BadForm)
    else
      var at := IndexOf(d, '@');
      if at == |d| then Err(BadForm)
      else if !ValidUsername(d[..at]) then Err(BadUsername)
      else match CanonicalHost(lib, d[at + 1..])
        case Err(e) => Err(e)
        case Ok(h) => Ok(Target(d[..at], h))
  }

  function Destination(t: Target): string {
    t.username + "@" + if ':' in t.host then "[" + t.host + "]" else t.host
  }

  // ---- Facts about names and labels ----

  lemma {:induction false} IndexOfIs(s: string, c: char, i: nat)
    requires i <= |s| && c !in s[..i] && (i < |s| ==> s[i] == c)
    ensures IndexOf(s, c) == i
  {
    var j := IndexOf(s, c);
    assert forall k | 0 <= k < i :: s[..i][k] == s[k];
    assert forall k | 0 <= k < j :: s[..j][k] == s[k];
  }

  lemma LabelsTail(s: string)
    requires Labels(s) && IndexOf(s, '.') < |s|
    ensures ValidLabel(s[..IndexOf(s, '.')]) && Labels(s[IndexOf(s, '.') + 1..])
  {
    var i := IndexOf(s, '.');
    assert Split(s)[0] == s[..i];
    var rest := Split(s[i + 1..]);
    forall k | 0 <= k < |rest|
      ensures ValidLabel(rest[k])
    {
      assert Split(s)[k + 1] == rest[k];
    }
  }

  /** A name made of labels starts and ends with a letter or digit. */
  lemma {:induction false} LabelChars(s: string)
    requires Labels(s)
    ensures |s| > 0 && Alnum(s[0]) && Alnum(s[|s| - 1])
    ensures forall c | c in s :: Alnum(c) || c == '-' || c == '.'
    decreases |s|
  {
    var i := IndexOf(s, '.');
    if i < |s| {
      LabelsTail(s);
      LabelChars(s[i + 1..]);
      assert s == s[..i] + ['.'] + s[i + 1..];
      assert s[..i][0] == s[0];
    } else {
      assert Split(s)[0] == s;
    }
  }

  function LowerAll(f: seq<string>): seq<string> {
    seq(|f|, i requires 0 <= i < |f| => Lower(f[i]))
  }

  lemma LowerIndex(s: string)
    ensures IndexOf(Lower(s), '.') == IndexOf(s, '.')
  {
    var i, l := IndexOf(s, '.'), Lower(s);
    forall k | 0 <= k < i
      ensures l[k] != '.'
    {
      assert s[..i][k] != '.';
    }
    IndexOfIs(l, '.', i);
  }

  lemma LowerParts(s: string, i: nat)
    requires i < |s|
    ensures Lower(s)[..i] == Lower(s[..i]) && Lower(s)[i + 1..] == Lower(s[i + 1..])
  {
  }

  lemma LowerAllStep(a: string, f: seq<string>)
    ensures LowerAll([a] + f) == [Lower(a)] + LowerAll(f)
  {
  }

  lemma {:induction false} LowerSplit(s: string)
    ensures Split(Lower(s)) == LowerAll(Split(s))
    decreases |s|
  {
    var i, l := IndexOf(s, '.'), Lower(s);
    LowerIndex(s);
    if i < |s| {
      LowerSplit(s[i + 1..]);
      LowerParts(s, i);
      assert Split(l) == [Lower(s[..i])] + Split(Lower(s[i + 1..]));
      assert Split(s) == [s[..i]] + Split(s[i + 1..]);
      LowerAllStep(s[..i], Split(s[i + 1..]));
    } else {
      assert LowerAll([s]) == [Lower(s)];
    }
  }

  lemma LowerKeepsLabels(s: string)
    requires Labels(s)
    ensures Labels(Lower(s))
  {
    LowerSplit(s);
    var f := Split(s);
    forall i | 0 <= i < |f|
      ensures ValidLabel(Lower(f[i]))
    {
      LowerKeepsLabel(f[i]);
    }
  }

  lemma LowerKeepsLabel(s: string)
    requires ValidLabel(s)
    ensures ValidLabel(Lower(s))
  {
    forall c | c in Lower(s)
      ensures Alnum(c) || c == '-'
    {
      var i :| 0 <= i < |s| && Lower(s)[i] == c;
      assert s[i] in s;
    }
  }

  lemma {:induction false} QuadIsNumeric(s: string, n: nat)
    requires |Split(s)| == n && forall i | 0 <= i < n :: Octet(Split(s)[i])
    ensures NumericHost(s)
    decreases |s|
  {
    var i := IndexOf(s, '.');
    if i < |s| {
      assert Split(s)[0] == s[..i];
      var rest := Split(s[i + 1..]);
      forall k | 0 <= k < |rest|
        ensures Octet(rest[k])
      {
        assert Split(s)[k + 1] == rest[k];
      }
      QuadIsNumeric(s[i + 1..], n - 1);
      assert s == s[..i] + ['.'] + s[i + 1..];
    } else {
      assert Split(s)[0] == s;
    }
  }

  // ---- Canonical hosts ----

  /** What an accepted host is: IPv6 text, a dotted quad, or a lower-case name
      that is not all digits and dots. */
  ghost predicate Canonical(lib: Lib, h: string) {
    || (lib.ip6(h) == V6(h) && ':' in h && 2 <= |h| <= 39
        && forall x | x in h :: Digit(x) || 'a' <= x <= 'f' || x == ':')
    || DottedQuad(h)
    || (Labels(h) && Lower(h) == h && |h| <= 253 && !NumericHost(h))
  }

  lemma AcceptedNameIsCanonical(lib: Lib, host: string)
    requires |host| > 0 && |host| <= 253 && !NumericHost(host)
    requires var trimmed := if host[|host| - 1] == '.' then host[..|host| - 1] else host; Labels(trimmed)
    ensures var trimmed := if host[|host| - 1] == '.' then host[..|host| - 1] else host; Canonical(lib, Lower(trimmed))
  {
    var trimmed := if host[|host| - 1] == '.' then host[..|host| - 1] else host;
    var h := Lower(trimmed);
    LowerKeepsLabels(trimmed);
    assert Lower(h) == h;
    var k :| 0 <= k < |host| && !Digit(host[k]) && host[k] != '.';
    assert k < |trimmed| && trimmed[k] == host[k];
    LabelChars(trimmed);
    assert trimmed[k] in trimmed;
    assert h[k] in h && !Digit(h[k]) && h[k] != '.';
  }

  lemma AcceptedIsCanonical(lib: Lib, host: string, h: string)
    requires Lawful(lib) && CanonicalHost(lib, host) == Ok(h)
    ensures Canonical(lib, h)
  {
    var inner := if |host| >= 2 then host[1..|host| - 1] else "";
    assert match lib.ip6(inner) case V6(c) => lib.ip6(c) == V6(c) case _ => true;
    assert match lib.ip6(host) case V4(c) => DottedQuad(c) case _ => true;
    if host[0] != '[' && host[|host| - 1] != ']' && ParseIP(lib, host).NotIP? {
      AcceptedNameIsCanonical(lib, host);
    }
  }

  /** The host part Destination prints. */
  function Printed(h: string): string {
    if ':' in h then "[" + h + "]" else h
  }

  lemma NoColonSeparator(s: string)
    requires ':' !in s
    ensures IndexOf(s, ':') == |s|
  {
    assert s[..|s|] == s;
    IndexOfIs(s, ':', |s|);
  }

  lemma IPv6RoundTrip(lib: Lib, h: string)
    requires lib.ip6(h) == V6(h) && ':' in h && |h| >= 2
    requires forall x | x in h :: Digit(x) || 'a' <= x <= 'f' || x == ':'
    ensures CanonicalHost(lib, "[" + h + "]") == Ok(h)
  {
    var p := "[" + h + "]";
    assert p[1..|p| - 1] == h;
    var i, j := IndexOf(h, '.'), IndexOf(h, ':');
    assert forall k | 0 <= k < |h| :: h[k] in h;
    assert h[..|h|] == h;
    assert j < |h|;
  }

  lemma QuadRoundTrip(lib: Lib, h: string)
    requires DottedQuad(h)
    ensures ':' !in h && CanonicalHost(lib, h) == Ok(h)
  {
    QuadIsNumeric(h, 4);
    NoColonSeparator(h);
    assert h[0] in h && h[|h| - 1] in h;
  }

  lemma NameRoundTrip(lib: Lib, h: string)
    requires Labels(h) && Lower(h) == h && |h| <= 253 && !NumericHost(h)
    ensures ':' !in h && CanonicalHost(lib, h) == Ok(h)
  {
    LabelChars(h);
    NoColonSeparator(h);
    NameIsNoQuad(h);
    assert ParseIP(lib, h) == NotIP;
  }

  /** A canonical host prints to a form that canonicalises back to it. */
  lemma CanonicalRoundTrip(lib: Lib, h: string)
    requires Canonical(lib, h)
    ensures CanonicalHost(lib, Printed(h)) == Ok(h)
  {
    if DottedQuad(h) {
      QuadRoundTrip(lib, h);
    } else if Labels(h) && Lower(h) == h && |h| <= 253 && !NumericHost(h) {
      NameRoundTrip(lib, h);
    } else {
      IPv6RoundTrip(lib, h);
    }
  }

  lemma NameIsNoQuad(h: string)
    requires !NumericHost(h)
    ensures !DottedQuad(h)
  {
    if DottedQuad(h) {
      QuadIsNumeric(h, 4);
    }
  }

  // ---- Printing and parsing ----

  lemma {:induction false} CountZero(s: string)
    requires '@' !in s
    ensures Count(s) == 0
  {
    if |s| > 0 {
      CountZero(s[1..]);
    }
  }

  lemma {:induction false} CountAppend(a: string, b: string)
    ensures Count(a + b) == Count(a) + Count(b)
  {
    if |a| > 0 {
      assert (a + b)[1..] == a[1..] + b;
      CountAppend(a[1..], b);
    } else {
      assert a + b == b;
    }
  }

  /** ASCII without '@' or white space. */
  predicate Plain(s: string) {
    forall c | c in s :: c as int < 0x80 && c != '@' && !White(c)
  }

  /** A printed host is plain and fits. */
  lemma PrintedChars(lib: Lib, h: string)
    requires Lawful(lib) && Canonical(lib, h)
    ensures Plain(Printed(h)) && 0 < |Printed(h)| <= 253
  {
    if DottedQuad(h) {
      QuadChars(h);
    } else if Labels(h) && Lower(h) == h && |h| <= 253 && !NumericHost(h) {
      NameChars(h);
    } else {
      assert lib.ip6(h) == V6(h) && ':' in h;
      IPv6Chars(h);
    }
  }

  lemma QuadChars(h: string)
    requires DottedQuad(h)
    ensures Plain(Printed(h)) && 0 < |Printed(h)| <= 253
  {
    QuadIsNumeric(h, 4);
    QuadIsShort(h);
  }

  lemma NameChars(h: string)
    requires Labels(h) && |h| <= 253
    ensures Plain(Printed(h)) && 0 < |Printed(h)| <= 253
  {
    LabelChars(h);
  }

  lemma IPv6Chars(h: string)
    requires ':' in h && |h| <= 39 && forall x | x in h :: Digit(x) || 'a' <= x <= 'f' || x == ':'
    ensures Plain(Printed(h)) && 0 < |Printed(h)| <= 253
  {
  }

  lemma QuadIsShort(h: string)
    requires DottedQuad(h)
    ensures |h| <= 15
  {
    SplitLength(h);
    TotalAtMost(Split(h), 3);
  }

  lemma {:induction false} TotalAtMost(f: seq<string>, m: nat)
    requires forall i | 0 <= i < |f| :: |f[i]| <= m
    ensures TotalLength(f) <= |f| * m
  {
    if |f| > 0 {
      TotalAtMost(f[1..], m);
      assert |f| * m == m + |f[1..]| * m;
    }
  }

  function TotalLength(f: seq<string>): nat {
    if |f| == 0 then 0 else |f[0]| + TotalLength(f[1..])
  }

  lemma {:induction false} SplitLength(s: string)
    ensures |s| == TotalLength(Split(s)) + |Split(s)| - 1
    decreases |s|
  {
    var i := IndexOf(s, '.');
    if i < |s| {
      SplitLength(s[i + 1..]);
      assert Split(s)[1..] == Split(s[i + 1..]);
    } else {
      assert [s][1..] == [];
    }
  }

  /** username@host, both plain and short, is neither too long nor trimmed. */
  lemma PrintedFits(u: string, p: string)
    requires ValidUsername(u) && Plain(p) && 0 < |p| <= 253
    ensures ByteLength(u + "@" + p) <= 384 && Trim(u + "@" + p) == u + "@" + p
  {
    var s := u + "@" + p;
    UserPlain(u);
    forall c | c in s
      ensures c as int < 0x80
    {
      assert c in u || c == '@' || c in p;
    }
    AsciiLength(s);
    assert s[0] == u[0] && s[|s| - 1] == p[|p| - 1];
    TrimTrims(s);
  }

  lemma UserPlain(u: string)
    requires ValidUsername(u)
    ensures Plain(u)
  {
  }

  lemma ParsePrinted(lib: Lib, u: string, p: string, h: string)
    requires ValidUsername(u) && Plain(p) && 0 < |p| <= 253
    requires CanonicalHost(lib, p) == Ok(h)
    ensures Parse(lib, u + "@" + p) == Ok(Target(u, h))
  {
    var s := u + "@" + p;
    PrintedFits(u, p);
    assert '@' !in u && '@' !in p;
    CountZero(u);
    CountZero(p);
    assert s == u + ("@" + p);
    CountAppend(u, "@" + p);
    assert ("@" + p)[1..] == p;
    assert s[..|u|] == u && s[|u| + 1..] == p;
    IndexOfIs(s, '@', |u|);
  }

  /** Every accepted destination prints to a form that is accepted and parses to
      the same target. */
  lemma PrintParse(lib: Lib, d: string, t: Target)
    requires Lawful(lib) && Parse(lib, d) == Ok(t)
    ensures Parse(lib, Destination(t)) == Ok(t)
  {
    AcceptedIsCanonical(lib, d[IndexOf(d, '@') + 1..], t.host);
    CanonicalRoundTrip(lib, t.host);
    PrintedChars(lib, t.host);
    ParsePrinted(lib, t.username, Printed(t.host), t.host);
  }

  /** Printed destinations are fixed points, so the canonical form is unique. */
  lemma CanonicalFormIsUnique(lib: Lib, d: string, e: string, t: Target)
    requires Lawful(lib) && Parse(lib, d) == Ok(t)
    requires Parse(lib, e).Ok? && Destination(Parse(lib, e).value) == e
    ensures Parse(lib, e) == Ok(t) <==> e == Destination(t)
  {
    PrintParse(lib, d, t);
  }

  // ---- What is accepted ----

  /** Text that spells host h: IPv6 text in brackets, other text for an address
      the library reads as IPv4, a dotted quad itself, or a name in any case, with
      or without a final dot. */
  ghost predicate Spells(lib: Lib, text: string, h: string) {
    || (exists x :: text == "[" + x + "]" && IsIPv6(lib, x, h))
    || (text != "" && text[0] != '-' && text[0] != '[' && text[|text| - 1] != ']' && Colons(text)
        && lib.ip6(text) == V4(h))
    || (DottedQuad(text) && h == text)
    || (|text| <= 253 && !NumericHost(text) && exists n :: (text == n || text == n + ".") && Labels(n) && h == Lower(n))
  }

  /** Text with a colon before any dot goes to the library. */
  predicate Colons(s: string) {
    IndexOf(s, ':') < IndexOf(s, '.')
  }

  predicate IsIPv6(lib: Lib, x: string, h: string) {
    x != "" && Colons(x) && lib.ip6(x) == V6(h)
  }

  lemma BracketsSpell(lib: Lib, text: string, h: string)
    requires text != "" && (text[0] == '[' || text[|text| - 1] == ']') && text[0] != '-'
    ensures CanonicalHost(lib, text) == Ok(h) <==> exists x :: text == "[" + x + "]" && IsIPv6(lib, x, h)
  {
    if CanonicalHost(lib, text) == Ok(h) {
      var x := text[1..|text| - 1];
      assert text == "[" + x + "]" && IsIPv6(lib, x, h);
    }
    if x :| text == "[" + x + "]" && IsIPv6(lib, x, h) {
      assert text[1..|text| - 1] == x;
    }
  }

  /** A name, dotted or not at its end, starts and ends like no bracketed text. */
  lemma NameEnds(text: string, n: string)
    requires (text == n || text == n + ".") && Labels(n)
    ensures text != "" && text[0] != '-' && text[0] != '[' && text[|text| - 1] != ']' && ':' !in text
    ensures n == if text[|text| - 1] == '.' then text[..|text| - 1] else text
  {
    LabelChars(n);
    assert forall c | c in text :: c in n || c == '.';
    assert text[0] == n[0];
  }

  lemma QuadEnds(text: string)
    requires DottedQuad(text)
    ensures text != "" && text[0] != '-' && text[0] != '[' && text[|text| - 1] != ']' && ':' !in text
    ensures NumericHost(text)
  {
    QuadIsNumeric(text, 4);
    assert text[0] in text && text[|text| - 1] in text;
  }

  /** A host is accepted, as h, exactly when it spells h. */
  lemma AcceptedIffSpelled(lib: Lib, text: string, h: string)
    ensures CanonicalHost(lib, text) == Ok(h) <==> Spells(lib, text, h)
  {
    forall n | (text == n || text == n + ".") && Labels(n)
      ensures text != "" && text[0] != '-' && text[0] != '[' && text[|text| - 1] != ']' && ':' !in text
      ensures n == if text[|text| - 1] == '.' then text[..|text| - 1] else text
    {
      NameEnds(text, n);
    }
    if DottedQuad(text) {
      QuadEnds(text);
    }
    if text != "" && text[0] != '-' && (text[0] == '[' || text[|text| - 1] == ']') {
      BracketsSpell(lib, text, h);
    } else if text != "" && text[0] != '-' {
      PlainSpell(lib, text, h);
    }
  }

  lemma PlainSpell(lib: Lib, text: string, h: string)
    requires text != "" && text[0] != '-' && text[0] != '[' && text[|text| - 1] != ']'
    ensures CanonicalHost(lib, text) == Ok(h) <==> Spells(lib, text, h)
  {
    ColonMeans(text);
    forall x
      ensures text != "[" + x + "]"
    {
      assert ("[" + x + "]")[0] == '[';
    }
    if DottedQuad(text) {
      QuadEnds(text);
    } else {
      NameSpells(text, h);
    }
  }

  /** The name in text, its final dot removed. */
  function NameOf(text: string): string
    requires text != ""
  {
    if text[|text| - 1] == '.' then text[..|text| - 1] else text
  }

  lemma NameSpells(text: string, h: string)
    requires text != ""
    ensures (exists n :: (text == n || text == n + ".") && Labels(n) && h == Lower(n)) <==>
            Labels(NameOf(text)) && h == Lower(NameOf(text))
    ensures Labels(NameOf(text)) ==> ':' !in text && NameOf(text) != ""
  {
    var n := NameOf(text);
    assert text == n || text == n + ".";
    forall m | (text == m || text == m + ".") && Labels(m)
      ensures m == n
    {
      NameEnds(text, m);
    }
    if Labels(n) {
      NameEnds(text, n);
      LabelChars(n);
    }
  }

  lemma ColonMeans(s: string)
    ensures Colons(s) ==> ':' in s
  {
  }

  /** A destination is accepted, as user and host, exactly when it is user@text,
      with a valid user and text without '@' that spells the host, has no white
      space around it and is at most 384 bytes. */
  lemma ParseIff(lib: Lib, d: string, t: Target)
    ensures Parse(lib, d) == Ok(t) <==>
              && ByteLength(d) <= 384 && Trimmed(d) && ValidUsername(t.username)
              && exists text :: d == t.username + "@" + text && '@' !in text && Spells(lib, text, t.host)
  {
    if Parse(lib, d) == Ok(t) {
      var text := ParsedText(lib, d, t);
    }
    if text :| d == t.username + "@" + text && '@' !in text && Spells(lib, text, t.host) {
      if ByteLength(d) <= 384 && Trimmed(d) && ValidUsername(t.username) {
        SpelledParses(lib, t.username, text, t.host);
      }
    }
  }

  lemma ParsedText(lib: Lib, d: string, t: Target) returns (text: string)
    requires Parse(lib, d) == Ok(t)
    ensures ByteLength(d) <= 384 && Trimmed(d) && ValidUsername(t.username)
    ensures d == t.username + "@" + text && '@' !in text && Spells(lib, text, t.host)
  {
    TrimTrims(d);
    var at := IndexOf(d, '@');
    text := d[at + 1..];
    AcceptedIffSpelled(lib, text, t.host);
    assert d == d[..at] + "@" + text;
    OneAt(d[..at], text);
  }

  lemma SpelledParses(lib: Lib, u: string, text: string, h: string)
    requires var d := u + "@" + text; ByteLength(d) <= 384 && Trimmed(d)
    requires ValidUsername(u) && '@' !in text && Spells(lib, text, h)
    ensures Parse(lib, u + "@" + text) == Ok(Target(u, h))
  {
    var d := u + "@" + text;
    TrimTrims(d);
    UserPlain(u);
    OneAt(u, text);
    assert d[..|u|] == u && d[|u| + 1..] == text;
    IndexOfIs(d, '@', |u|);
    AcceptedIffSpelled(lib, text, h);
  }

  /** Nothing accepted can pass for an option: neither the destination nor its host
      starts with a dash. */
  lemma NeverAnOption(lib: Lib, d: string, t: Target)
    requires Lawful(lib) && Parse(lib, d) == Ok(t)
    ensures d != "" && d[0] != '-' && d[0] != '.' && t.host != "" && t.host[0] != '-'
    ensures Destination(t)[0] == d[0]
  {
    var text := ParsedText(lib, d, t);
    AcceptedIffSpelled(lib, text, t.host);
    AcceptedIsCanonical(lib, text, t.host);
    assert d[0] == t.username[0] && Alnum('-') == false && Alnum('.') == false;
    if DottedQuad(t.host) {
      QuadEnds(t.host);
    } else if Labels(t.host) {
      LabelChars(t.host);
    } else {
      assert t.host[0] in t.host;
    }
  }

  lemma OneAt(u: string, text: string)
    requires '@' !in u
    ensures Count(u + "@" + text) == 1 <==> '@' !in text
  {
    CountZero(u);
    assert u + "@" + text == u + ("@" + text);
    CountAppend(u, "@" + text);
    assert ("@" + text)[1..] == text;
    CountSome(text);
  }

  lemma {:induction false} CountSome(s: string)
    ensures Count(s) == 0 <==> '@' !in s
  {
    if |s| > 0 {
      CountSome(s[1..]);
      assert s == [s[0]] + s[1..];
    }
  }

  /** Letters, digits and lower case are those of ASCII. */
  lemma Alphabet(c: char, i: nat)
    requires i < 26
    ensures var (upper, lower) := (('A' as int + i) as char, ('a' as int + i) as char);
      Letter(upper) && Letter(lower) && LowerChar(upper) == lower && LowerChar(lower) == lower
    ensures i < 10 ==> Digit(('0' as int + i) as char)
    ensures !Letter(c) ==> LowerChar(c) == c
    ensures Alnum(c) ==> '0' <= c <= '9' || 'A' <= c <= 'Z' || 'a' <= c <= 'z'
  {
  }

  /** A field of a dotted quad is a number below 256 as it is printed. */
  lemma OctetIff(s: string)
    ensures Octet(s) <==> exists n: nat :: n < 256 && s == Itoa(n)
  {
    if Octet(s) {
      var n := OctetValue(s);
    }
    if n: nat :| n < 256 && s == Itoa(n) {
      OctetPrinted(n);
    }
  }

  lemma OctetValue(s: string) returns (n: nat)
    requires Octet(s)
    ensures n < 256 && Itoa(n) == s
  {
    var zero := '0' as int;
    assert forall i | 0 <= i < |s| :: s[i] in s;
    if |s| == 1 {
      n := s[0] as int - zero;
    } else if |s| == 2 {
      n := TwoDigits(s);
    } else {
      var high := TwoDigits(s[..2]);
      n := high * 10 + (s[2] as int - zero);
      assert s == s[..2] + [s[2]];
    }
  }

  lemma TwoDigits(s: string) returns (n: nat)
    requires |s| == 2 && Digit(s[0]) && Digit(s[1]) && s[0] != '0'
    ensures n == (s[0] as int - '0' as int) * 10 + (s[1] as int - '0' as int) && 10 <= n < 100 && Itoa(n) == s
  {
    var high := s[0] as int - '0' as int;
    n := high * 10 + (s[1] as int - '0' as int);
    assert n / 10 == high && Itoa(high) == [s[0]];
  }

  lemma OctetPrinted(n: nat)
    requires n < 256
    ensures Octet(Itoa(n))
  {
    if n >= 10 {
      var high := n / 10;
      assert high < 26 && (high >= 10 ==> Itoa(high) == Itoa(high / 10) + [('0' as int + high % 10) as char]);
    }
  }

  /** The length limits of a label and a user name. */
  lemma NameLengths(n: nat)
    ensures var s := seq(n, _ => 'a'); (ValidLabel(s) <==> 1 <= n <= 63) && (ValidUsername(s) <==> 1 <= n <= 64)
  {
  }
}
