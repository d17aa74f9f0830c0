/**
 * `FormatDetector.detect_format` of the genson-based converter: an ordered
 * first-match classifier of strings over six hand-written anchored patterns
 * (email, uuid, date-time, date, uri, ipv4). Each pattern is written out here as
 * a predicate on the characters of the string; `MatchesAnchored` adds the
 * behaviour of Python's `$`, which also matches just before a final newline.
 */
module FormatDetector {
  import opened Wrappers
  import opened Text
  import opened JsonValues

  // ------------------------------------------------------ character classes

  /** `[0-9]` (and `\d` on ASCII input). */
  predicate IsDigit(c: char) {
    '0' <= c <= '9'
  }

  /** `[a-zA-Z]`. */
  predicate IsLetter(c: char) {
    'a' <= c <= 'z' || 'A' <= c <= 'Z'
  }

  /** `[0-9a-f]` under `re.I`. */
  predicate IsHex(c: char) {
    IsDigit(c) || 'a' <= c <= 'f' || 'A' <= c <= 'F'
  }

  /**
   * `c` matches the lower-case letter `lower` under `re.I`: either case, and for
   * `s` also the long s `ſ`, which Python's case-insensitive matching folds to `s`.
   */
  predicate FoldsTo(c: char, lower: char)
    requires 'a' <= lower <= 'z'
  {
    c == lower || c as int == lower as int - 32 || (lower == 's' && c == 'ſ')
  }

  predicate AllDigits(t: string) {
    forall i :: 0 <= i < |t| ==> IsDigit(t[i])
  }

  /** The value of a string of decimal digits. */
  function DecimalValue(t: string): nat
    requires AllDigits(t)
  {
    if t == [] then 0 else 10 * DecimalValue(t[..|t| - 1]) + (t[|t| - 1] as int - '0' as int)
  }

  // ------------------------------------------------------------ the patterns

  /** `[a-zA-Z0-9._%+-]`. */
  predicate LocalChar(c: char) {
    IsLetter(c) || IsDigit(c) || c == '.' || c == '_' || c == '%' || c == '+' || c == '-'
  }

  /** `[a-zA-Z0-9.-]`. */
  predicate DomainChar(c: char) {
    IsLetter(c) || IsDigit(c) || c == '.' || c == '-'
  }

  predicate AllLocal(t: string) {
    forall i :: 0 <= i < |t| ==> LocalChar(t[i])
  }

  predicate AllDomain(t: string) {
    forall i :: 0 <= i < |t| ==> DomainChar(t[i])
  }

  predicate AllLetters(t: string) {
    forall i :: 0 <= i < |t| ==> IsLetter(t[i])
  }

  /** `[a-zA-Z0-9._%+-]+@[a-zA-Z0-9.-]+\.[a-zA-Z]{2,}`: `at` is the `@`, `dot` the last dot. */
  predicate EmailSplit(s: string, at: int, dot: int) {
    && 0 < at && at + 1 < dot && dot + 3 <= |s|
    && s[at] == '@' && s[dot] == '.'
    && AllLocal(s[..at]) && AllDomain(s[at + 1..dot]) && AllLetters(s[dot + 1..])
  }

  predicate EmailBody(s: string) {
    exists at, dot :: 0 < at < dot < |s| && EmailSplit(s, at, dot)
  }

  /** `[0-9a-f]{8}-[0-9a-f]{4}-[1-5][0-9a-f]{3}-[89ab][0-9a-f]{3}-[0-9a-f]{12}` under `re.I`. */
  predicate UuidBody(s: string) {
    && |s| == 36
    && s[8] == '-' && s[13] == '-' && s[18] == '-' && s[23] == '-'
    && AllHex(s[..8]) && AllHex(s[9..13]) && AllHex(s[14..18]) && AllHex(s[19..23]) && AllHex(s[24..])
    && '1' <= s[14] <= '5'
    && (s[19] == '8' || s[19] == '9' || FoldsTo(s[19], 'a') || FoldsTo(s[19], 'b'))
  }

  predicate AllHex(t: string) {
    forall i :: 0 <= i < |t| ==> IsHex(t[i])
  }

  /** `\d{4}-\d{2}-\d{2}`: the shape only, so `9999-99-99` passes. */
  predicate DateBody(s: string) {
    && |s| == 10
    && s[4] == '-' && s[7] == '-'
    && (forall i :: 0 <= i < |s| && i != 4 && i != 7 ==> IsDigit(s[i]))
  }

  /** `\d{2}:\d{2}:\d{2}`. */
  predicate ClockBody(t: string) {
    && |t| == 8
    && t[2] == ':' && t[5] == ':'
    && (forall i :: 0 <= i < |t| && i != 2 && i != 5 ==> IsDigit(t[i]))
  }

  /** `Z|[+-]\d{2}:\d{2}`. */
  predicate Zone(t: string) {
    || t == "Z"
    || (&& |t| == 6 && (t[0] == '+' || t[0] == '-')
        && IsDigit(t[1]) && IsDigit(t[2]) && t[3] == ':' && IsDigit(t[4]) && IsDigit(t[5]))
  }

  /** `(\.\d+)?(Z|[+-]\d{2}:\d{2})`: optional fractional seconds, then the zone. */
  predicate FractionAndZone(t: string) {
    || Zone(t)
    || (|t| > 0 && t[0] == '.' && exists k :: 2 <= k <= |t| && AllDigits(t[1..k]) && Zone(t[k..]))
  }

  /** `\d{4}-\d{2}-\d{2}T\d{2}:\d{2}:\d{2}(\.\d+)?(Z|[+-]\d{2}:\d{2})`. */
  predicate DateTimeBody(s: string) {
    && |s| >= 20
    && DateBody(s[..10]) && s[10] == 'T' && ClockBody(s[11..19])
    && FractionAndZone(s[19..])
  }

  /** `https?://` under `re.I`; the result is the length of the scheme part, 0 when absent. */
  function SchemeLength(s: string): (n: nat)
    ensures n == 0 || n == 7 || n == 8
    ensures n > 0 ==> n <= |s| && s[n - 3..n] == "://"
  {
    if |s| >= 7 && FoldsTo(s[0], 'h') && FoldsTo(s[1], 't') && FoldsTo(s[2], 't') && FoldsTo(s[3], 'p')
       && s[4..7] == "://" then 7
    else if |s| >= 8 && FoldsTo(s[0], 'h') && FoldsTo(s[1], 't') && FoldsTo(s[2], 't') && FoldsTo(s[3], 'p')
       && FoldsTo(s[4], 's') && s[5..8] == "://" then 8
    else 0
  }

  /** `[^\s/$.?#].[^\s]*`: a host character, any character but a newline, then no white space. */
  predicate UriRest(t: string) {
    && |t| >= 2
    && !IsSpace(t[0]) && t[0] != '/' && t[0] != '$' && t[0] != '.' && t[0] != '?' && t[0] != '#'
    && t[1] != '\n'
    && (forall i :: 2 <= i < |t| ==> !IsSpace(t[i]))
  }

  /** `https?://[^\s/$.?#].[^\s]*` under `re.I`. */
  predicate UriBody(s: string) {
    var n := SchemeLength(s);
    n > 0 && UriRest(s[n..])
  }

  /** `25[0-5]|2[0-4][0-9]|[01]?[0-9][0-9]?`: one to three digits worth at most 255. */
  predicate Octet(t: string) {
    1 <= |t| <= 3 && AllDigits(t) && DecimalValue(t) <= 255
  }

  /** Four octets separated by dots. */
  predicate Ipv4Body(s: string) {
    var parts := Split(s, '.');
    |parts| == 4 && forall i :: 0 <= i < 4 ==> Octet(parts[i])
  }

  // Each anchored pattern, with the fixed characters every match carries.

  /** `EMAIL_PATTERN.match`: at least a local character, `@`, a domain character, `.` and two letters. */
  function IsEmail(s: string): (b: bool)
    ensures b ==> |s| >= 6
  {
    MatchesAnchored(EmailBody, s)
  }

  /** `UUID_PATTERN.match`: dashes at positions 8, 13, 18 and 23. */
  function IsUuid(s: string): (b: bool)
    ensures b ==> |s| >= 36 && s[8] == '-' && s[13] == '-' && s[18] == '-' && s[23] == '-'
  {
    MatchesAnchored(UuidBody, s)
  }

  /** `DATETIME_PATTERN.match`: a date, an upper-case `T`, then a clock. */
  function IsDateTime(s: string): (b: bool)
    ensures b ==> |s| >= 20 && s[4] == '-' && s[7] == '-' && s[10] == 'T' && s[13] == ':' && s[16] == ':'
  {
    MatchesAnchored(DateTimeBody, s)
  }

  /** `DATE_PATTERN.match`: ten characters with dashes at positions 4 and 7. */
  function IsDate(s: string): (b: bool)
    ensures b ==> |s| >= 10 && s[4] == '-' && s[7] == '-' && IsDigit(s[0]) && IsDigit(s[9])
  {
    MatchesAnchored(DateBody, s)
  }

  /** `URI_PATTERN.match`: `http://` or `https://`, then at least two characters. */
  function IsUri(s: string): (b: bool)
    ensures b ==> |s| >= 9 && (s[4..7] == "://" || s[5..8] == "://")
  {
    MatchesAnchored(UriBody, s)
  }

  /** `IPV4_PATTERN.match`: a string that starts with a digit and holds a dot. */
  function IsIpv4(s: string): (b: bool)
    ensures b ==> |s| > 0 && IsDigit(s[0]) && '.' in s
  {
    if Ipv4Body(s) then Ipv4Shape(s); true
    else if |s| > 0 && s[|s| - 1] == '\n' && Ipv4Body(s[..|s| - 1]) then
      Ipv4Shape(s[..|s| - 1]);
      assert s[..|s| - 1][0] == s[0];
      var i :| 0 <= i < |s| - 1 && s[..|s| - 1][i] == '.';
      assert s[i] == '.';
      true
    else false
  }

  /** A dotted quad starts with a digit of its first octet and holds a dot. */
  lemma Ipv4Shape(s: string)
    requires Ipv4Body(s)
    ensures |s| > 0 && IsDigit(s[0]) && '.' in s
  {
    var parts := Split(s, '.');
    assert Octet(parts[0]);
    var i := IndexOfChar(s, '.');
    assert parts[0] == s[..i];
    assert s[..i][0] == s[0];
  }

  /** The patterns in the order `detect_format` tries them, one per distinct tag. */
  function Rules(): (r: seq<(string, string -> bool)>)
    ensures |r| == 6 && forall i :: 0 <= i < |r| ==> IsTag(r[i].0)
    ensures forall i, j :: 0 <= i < j < |r| ==> r[i].0 != r[j].0
  {
    [("email", IsEmail), ("uuid", IsUuid), ("date-time", IsDateTime),
     ("date", IsDate), ("uri", IsUri), ("ipv4", IsIpv4)]
  }

  predicate IsTag(t: string) {
    t in {"email", "uuid", "date-time", "date", "uri", "ipv4"}
  }

  /**
   * `detect_format`: `None` for a non-string or the empty string, otherwise the tag
   * of the first pattern that matches, or `None` when none does.
   */
  function DetectFormat(v: Json): (r: Option<string>)
    ensures !v.Str? || v.s == "" ==> r == None
    ensures r.Some? ==> IsTag(r.value)
  {
    if !v.Str? || v.s == "" then None
    else
      var s := v.s;
      if IsEmail(s) then Some("email")
      else if IsUuid(s) then Some("uuid")
      else if IsDateTime(s) then Some("date-time")
      else if IsDate(s) then Some("date")
      else if IsUri(s) then Some("uri")
      else if IsIpv4(s) then Some("ipv4")
      else None
  }

  /** The detected tag is that of the first rule, in table order, whose pattern matches, and `None` means none does. */
  lemma DetectFormatFirstMatch(s: string)
    requires s != ""
    ensures FirstMatch(Rules(), s, DetectFormat(Str(s)))
  {
    var rules := Rules();
    if IsEmail(s) {
      FirstMatchAt(rules, s, 0);
    } else if IsUuid(s) {
      FirstMatchAt(rules, s, 1);
    } else if IsDateTime(s) {
      FirstMatchAt(rules, s, 2);
    } else if IsDate(s) {
      FirstMatchAt(rules, s, 3);
    } else if IsUri(s) {
      FirstMatchAt(rules, s, 4);
    } else if IsIpv4(s) {
      FirstMatchAt(rules, s, 5);
    }
  }

  // ------------------------------------------------------------ properties

  /** Every email has an `@`. */
  lemma EmailHasAt(s: string)
    requires IsEmail(s)
    ensures '@' in s
  {
    if EmailBody(s) {
      var at, dot :| 0 < at < dot < |s| && EmailSplit(s, at, dot);
    } else {
      var t := s[..|s| - 1];
      var at, dot :| 0 < at < dot < |t| && EmailSplit(t, at, dot);
      assert t[at] == s[at];
    }
  }

  /** Only a string of 36 characters (37 with a final newline) can be a uuid. */
  lemma NotUuid(s: string)
    requires |s| != 36 && |s| != 37
    ensures !IsUuid(s)
  {
  }

  /** A date-time needs at least 20 characters. */
  lemma NotDateTime(s: string)
    requires |s| < 20
    ensures !IsDateTime(s)
  {
  }

  /** Only a string of 10 characters, or 11 ending in a newline, can be a date. */
  lemma NotDate(s: string)
    requires |s| != 10 && (|s| != 11 || s[10] != '\n')
    ensures !IsDate(s)
  {
  }

  /** A uri starts with `h` or `H`. */
  lemma NotUri(s: string)
    requires |s| > 0 && s[0] != 'h' && s[0] != 'H'
    ensures !IsUri(s)
  {
  }

  lemma NotEmail(s: string)
    requires '@' !in s
    ensures !IsEmail(s)
  {
    if IsEmail(s) {
      EmailHasAt(s);
    }
  }

  /** The date pattern checks the shape only: `9999-99-99` is a date. */
  lemma ImpossibleDateIsDate()
    ensures DetectFormat(Str("9999-99-99")) == Some("date")
  {
    var s := "9999-99-99";
    NotEmail(s);
    NotUuid(s);
    NotDateTime(s);
    assert DateBody(s);
  }

  lemma EmailSample()
    ensures DetectFormat(Str("john.doe" + "@" + "example" + "." + "com")) == Some("email")
  {
    var local, domain, tld := "john.doe", "example", "com";
    assert AllLocal(local) && AllDomain(domain) && AllLetters(tld);
    EmailParts(local, domain, tld);
  }

  /** An address assembled from its three parts splits back at the `@` and the last `.`. */
  lemma EmailParts(local: string, domain: string, tld: string)
    requires local != [] && domain != [] && |tld| >= 2
    requires AllLocal(local) && AllDomain(domain) && AllLetters(tld)
    ensures EmailSplit(local + "@" + domain + "." + tld, |local|, |local| + 1 + |domain|)
  {
    var s := local + "@" + domain + "." + tld;
    var at, dot := |local|, |local| + 1 + |domain|;
    assert s == local + ("@" + domain + "." + tld);
    assert s[..at] == local;
    assert s == (local + "@") + domain + ("." + tld);
    assert s[at + 1..dot] == domain;
    assert s == (local + "@" + domain + ".") + tld;
    assert s[dot + 1..] == tld;
  }

  lemma UuidSample()
    ensures DetectFormat(Str("550e8400" + "-" + "e29b" + "-" + "41d4" + "-" + "a716" + "-" + "446655440000")) == Some("uuid")
  {
    var g1, g2, g3, g4, g5 := "550e8400", "e29b", "41d4", "a716", "446655440000";
    SampleHexGroups();
    UuidOf(g1, g2, g3, g4, g5);
    NoAtInGroups(g1, g2, g3, g4, g5);
    NotEmail(g1 + "-" + g2 + "-" + g3 + "-" + g4 + "-" + g5);
  }

  lemma SampleHexGroups()
    ensures AllHex("550e8400") && AllHex("e29b") && AllHex("41d4") && AllHex("a716") && AllHex("446655440000")
  {
  }

  /** Hex groups joined by dashes hold no `@`. */
  lemma NoAtInGroups(g1: string, g2: string, g3: string, g4: string, g5: string)
    requires AllHex(g1) && AllHex(g2) && AllHex(g3) && AllHex(g4) && AllHex(g5)
    ensures '@' !in g1 + "-" + g2 + "-" + g3 + "-" + g4 + "-" + g5
  {
    assert '@' !in g1 && '@' !in g2 && '@' !in g3 && '@' !in g4 && '@' !in g5;
  }

  /** Five hex groups of 8, 4, 4, 4 and 12 digits joined by dashes, with the version and variant digits in range. */
  lemma UuidOf(g1: string, g2: string, g3: string, g4: string, g5: string)
    requires |g1| == 8 && |g2| == 4 && |g3| == 4 && |g4| == 4 && |g5| == 12
    requires AllHex(g1) && AllHex(g2) && AllHex(g3) && AllHex(g4) && AllHex(g5)
    requires '1' <= g3[0] <= '5'
    requires g4[0] == '8' || g4[0] == '9' || FoldsTo(g4[0], 'a') || FoldsTo(g4[0], 'b')
    ensures UuidBody(g1 + "-" + g2 + "-" + g3 + "-" + g4 + "-" + g5)
  {
    var s := g1 + "-" + g2 + "-" + g3 + "-" + g4 + "-" + g5;
    assert s[..8] == g1;
    assert s[9..13] == g2;
    assert s[14..18] == g3;
    assert s[19..23] == g4;
    assert s[24..] == g5;
  }

  lemma DateTimeSample()
    ensures DetectFormat(Str("2024-12-31T23:59:59Z")) == Some("date-time")
  {
    var s := "2024-12-31T23:59:59Z";
    NotEmail(s);
    NotUuid(s);
    DateTimeSampleBody();
  }

  lemma DateTimeSampleBody()
    ensures DateTimeBody("2024-12-31T23:59:59Z")
  {
    var s := "2024-12-31T23:59:59Z";
    assert s[..10] == "2024-12-31";
    assert s[11..19] == "23:59:59";
    assert s[19..] == "Z";
  }

  lemma UriSample()
    ensures DetectFormat(Str("https://example.org")) == Some("uri")
  {
    var s := "https://example.org";
    NotEmail(s);
    NotUuid(s);
    NotDateTime(s);
    NotDate(s);
    UriSampleBody();
  }

  lemma UriSampleBody()
    ensures UriBody("https://example.org")
  {
    var s := "https://example.org";
    assert s[4..7][0] == 's';
    assert s[5..8] == "://";
    assert SchemeLength(s) == 8;
    assert s[8..] == "example.org";
  }

  lemma Ipv4Sample()
    ensures DetectFormat(Str("192.168.0.1")) == Some("ipv4")
  {
    var s := "192.168.0.1";
    NotEmail(s);
    NotUuid(s);
    NotDateTime(s);
    NotDate(s);
    NotUri(s);
    assert s == "192" + "." + ("168" + "." + ("0" + "." + "1"));
    SampleOctets();
    DottedQuad("192", "168", "0", "1");
  }

  lemma SampleOctets()
    ensures Octet("192") && Octet("168") && Octet("0") && Octet("1")
  {
    assert DecimalValue("192") == 192 by {
      assert "192"[..2] == "19";
      assert "19"[..1] == "1";
    }
    assert DecimalValue("168") == 168 by {
      assert "168"[..2] == "16";
      assert "16"[..1] == "1";
    }
  }

  /** Four octets joined by dots form an address. */
  lemma DottedQuad(a: string, b: string, c: string, d: string)
    requires Octet(a) && Octet(b) && Octet(c) && Octet(d)
    ensures Ipv4Body(a + "." + (b + "." + (c + "." + d)))
  {
    OctetHasNoDot(a);
    OctetHasNoDot(b);
    OctetHasNoDot(c);
    OctetHasNoDot(d);
    SplitFour(a, b, c, d);
    var parts := Split(a + "." + (b + "." + (c + "." + d)), '.');
    assert Octet(parts[0]) && Octet(parts[1]) && Octet(parts[2]) && Octet(parts[3]);
  }

  lemma SplitFour(a: string, b: string, c: string, d: string)
    requires '.' !in a && '.' !in b && '.' !in c && '.' !in d
    ensures Split(a + "." + (b + "." + (c + "." + d)), '.') == [a, b, c, d]
  {
    SplitThree(b, c, d);
    SplitAfter(a, b + "." + (c + "." + d));
  }

  lemma SplitThree(b: string, c: string, d: string)
    requires '.' !in b && '.' !in c && '.' !in d
    ensures Split(b + "." + (c + "." + d), '.') == [b, c, d]
  {
    SplitTwo(c, d);
    SplitAfter(b, c + "." + d);
  }

  lemma SplitTwo(c: string, d: string)
    requires '.' !in c && '.' !in d
    ensures Split(c + "." + d, '.') == [c, d]
  {
    SplitAfter(c, d);
  }

  lemma OctetHasNoDot(t: string)
    requires Octet(t)
    ensures '.' !in t
  {
  }

  /** An octet above 255 is refused: `256.1.1.1` is not an address. */
  lemma OctetBound()
    ensures !Ipv4Body("256.1.1.1")
  {
    NotOctet256();
    FirstPartNotOctet("256", "1.1.1");
    assert "256" + "." + "1.1.1" == "256.1.1.1";
  }

  lemma FirstPartNotOctet(x: string, rest: string)
    requires '.' !in x && !Octet(x)
    ensures !Ipv4Body(x + "." + rest)
  {
    SplitAfter(x, rest);
    var parts := Split(x + "." + rest, '.');
    assert parts[0] == x;
    assert !Octet(parts[0]);
  }

  lemma NotOctet256()
    ensures !Octet("256")
  {
    assert AllDigits("256");
    assert "256"[..2] == "25";
    assert "25"[..1] == "2";
    assert DecimalValue("256") == 256;
  }
}
