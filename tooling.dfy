// The data-catalogue helpers that work without the network: choosing the format of a downloaded
// resource, the URL checks made before any request, the search-query builder, the filtering of
// a package's resources and the XML-to-dict conversion. The HTTP requests themselves, and the
// responses they bring back, are parameters or left out.

module Tooling {
  import opened Wrappers
  import opened Strings
  import opened PyValues

  // ---------------------------------------------------------------- resource formats

  /** The formats a resource can be parsed as. */
  datatype Format = Csv | Json | Xml | Xlsx | Xls | Txt

  function FormatName(f: Format): string
  {
    match f
    case Csv => "csv"
    case Json => "json"
    case Xml => "xml"
    case Xlsx => "xlsx"
    case Xls => "xls"
    case Txt => "txt"
  }

  /** The format a hint names, when it is one of the accepted names. */
  function FormatNamed(s: string): Option<Format>
  {
    if s == "csv" then Some(Csv)
    else if s == "json" then Some(Json)
    else if s == "xml" then Some(Xml)
    else if s == "xlsx" then Some(Xlsx)
    else if s == "xls" then Some(Xls)
    else if s == "txt" then Some(Txt)
    else None
  }

  /** The accepted names are exactly the formats' own names. */
  lemma FormatNamesRoundTrip(f: Format, s: string)
    ensures FormatNamed(FormatName(f)) == Some(f)
    ensures FormatNamed(s) == Some(f) ==> FormatName(f) == s
  {
  }

  /** The Content-Type tests, in their order: json, csv, xml, then excel or spreadsheet. */
  function ContentTypeFormat(contentType: string): Option<Format>
  {
    if Contains(contentType, "json") then Some(Json)
    else if Contains(contentType, "csv") || Contains(contentType, "comma-separated") then Some(Csv)
    else if Contains(contentType, "xml") then Some(Xml)
    else if Contains(contentType, "excel") || Contains(contentType, "spreadsheet") then
      if Contains(contentType, "sheet") then Some(Xlsx) else Some(Xls)
    else None
  }

  /** The extension tests on the lower-cased URL. */
  function UrlFormat(urlLower: string): Option<Format>
  {
    if EndsWith(urlLower, ".csv") then Some(Csv)
    else if EndsWith(urlLower, ".json") then Some(Json)
    else if EndsWith(urlLower, ".xml") then Some(Xml)
    else if EndsWith(urlLower, ".xlsx") then Some(Xlsx)
    else if EndsWith(urlLower, ".xls") then Some(Xls)
    else if EndsWith(urlLower, ".txt") || EndsWith(urlLower, ".text") then Some(Txt)
    else None
  }

  /** The format a non-empty hint names once lower-cased and stripped. */
  function HintFormat(hint: Option<string>): Option<Format>
  {
    if hint.Some? && hint.value != "" then FormatNamed(Strip(Lower(hint.value))) else None
  }

  /** _detect_format: a valid hint, else the Content-Type, else the URL's extension, else text. */
  function DetectFormat(url: string, contentType: string, hint: Option<string>): Format
  {
    match HintFormat(hint)
    case Some(f) => f
    case None =>
      match ContentTypeFormat(contentType)
      case Some(f) => f
      case None => UrlFormat(Lower(url)).GetOr(Txt)
  }

  /**
   * A hint that names a format after lower-casing and stripping decides the answer; any other
   * hint is ignored, as if none had been given.
   */
  lemma HintPrecedence(url: string, contentType: string, hint: string)
    ensures var f := FormatNamed(Strip(Lower(hint)));
      hint != "" && f.Some? ==> DetectFormat(url, contentType, Some(hint)) == f.value
    ensures !(hint != "" && FormatNamed(Strip(Lower(hint))).Some?) ==>
      DetectFormat(url, contentType, Some(hint)) == DetectFormat(url, contentType, None)
  {
  }

  /** Without a valid hint, a recognised Content-Type decides whatever the URL says. */
  lemma ContentTypeBeforeUrl(url: string, otherUrl: string, contentType: string, hint: Option<string>)
    requires HintFormat(hint).None? && ContentTypeFormat(contentType).Some?
    ensures DetectFormat(url, contentType, hint) == DetectFormat(otherUrl, contentType, hint)
    ensures DetectFormat(url, contentType, hint) == ContentTypeFormat(contentType).value
  {
  }

  lemma SpreadsheetHasSheet(contentType: string)
    requires Contains(contentType, "spreadsheet")
    ensures Contains(contentType, "sheet")
  {
    var i :| 0 <= i <= |contentType| && OccursAt(contentType, "spreadsheet", i);
    assert contentType[i + 6..i + 11] == contentType[i..i + 11][6..11];
    assert OccursAt(contentType, "sheet", i + 6);
  }

  /**
   * Any Content-Type mentioning xml (and neither json nor csv) is reported as xml, even a
   * spreadsheet one; a spreadsheet type is never xls, since "spreadsheet" contains "sheet".
   */
  lemma ContentTypeOrder(contentType: string)
    ensures (Contains(contentType, "xml") && !Contains(contentType, "json") && !Contains(contentType, "csv")
             && !Contains(contentType, "comma-separated")) ==> ContentTypeFormat(contentType) == Some(Xml)
    ensures ContentTypeFormat(contentType) == Some(Xls) ==>
      Contains(contentType, "excel") && !Contains(contentType, "spreadsheet")
  {
    if Contains(contentType, "spreadsheet") {
      SpreadsheetHasSheet(contentType);
    }
  }

  /**
   * Every answer is backed by its own evidence: a hint naming it, its marker in the
   * Content-Type, or its extension at the end of the URL; text is also the default.
   */
  lemma DetectFormatEvidence(url: string, contentType: string, hint: Option<string>)
    ensures var r := DetectFormat(url, contentType, hint);
      var u := Lower(url);
      && (HintFormat(hint) == Some(r)
        || (r == Json && Contains(contentType, "json"))
        || (r == Csv && (Contains(contentType, "csv") || Contains(contentType, "comma-separated")))
        || (r == Xml && Contains(contentType, "xml"))
        || (r == Xlsx && Contains(contentType, "sheet"))
        || (r == Xls && Contains(contentType, "excel"))
        || (r == Csv && EndsWith(u, ".csv"))
        || (r == Json && EndsWith(u, ".json"))
        || (r == Xml && EndsWith(u, ".xml"))
        || (r == Xlsx && EndsWith(u, ".xlsx"))
        || (r == Xls && EndsWith(u, ".xls"))
        || r == Txt)
  {
    if HintFormat(hint).None? && ContentTypeFormat(contentType) == Some(Xls) {
      ContentTypeOrder(contentType);
    }
  }

  // ---------------------------------------------------------------- URL checks

  /** The index of the first `c` in `s`, or |s| when there is none (the split of str.partition). */
  function FirstIndex(s: string, c: char): (k: nat)
    ensures k <= |s|
    ensures k < |s| ==> s[k] == c
    ensures forall j :: 0 <= j < k ==> s[j] != c
  {
    if s == [] || s[0] == c then 0 else 1 + FirstIndex(s[1..], c)
  }

  /** The first index from `i` on holding '/', '?' or '#', or |s|: where the netloc ends. */
  function NetlocEnd(s: string, i: nat): (k: nat)
    requires i <= |s|
    ensures i <= k <= |s|
    ensures k < |s| ==> s[k] in "/?#"
    ensures forall j :: i <= j < k ==> s[j] !in "/?#"
    decreases |s| - i
  {
    if i == |s| || s[i] in "/?#" then i else NetlocEnd(s, i + 1)
  }

  predicate AsciiLetter(c: char)
  {
    ('a' <= c <= 'z') || ('A' <= c <= 'Z')
  }

  /** The characters a URL scheme may hold. */
  predicate SchemeChar(c: char)
  {
    AsciiLetter(c) || ('0' <= c <= '9') || c in "+-."
  }

  /** The two parts of urllib.parse.urlsplit the checks read. */
  datatype UrlParts = UrlParts(scheme: string, netloc: string)

  /**
   * urlsplit's scheme: everything before the first ':' when it starts with a letter and is made
   * of scheme characters, lower-cased; the rest of the URL follows that ':'.
   */
  function SchemeSplit(url: string): (string, string)
  {
    var i := Find(url, ":");
    if i > 0 && AsciiLetter(url[0]) && forall k :: 0 <= k < i ==> SchemeChar(url[k]) then
      (Lower(url[..i]), url[i + 1..])
    else ("", url)
  }

  /** The netloc follows a leading "//" up to the first '/', '?' or '#'. */
  function NetlocOf(rest: string): string
  {
    if StartsWith(rest, "//") then rest[2..NetlocEnd(rest, 2)] else ""
  }

  /** urlsplit, which raises ValueError for a netloc with only one of '[' and ']'. */
  function SplitUrl(url: string): Result<UrlParts, string>
  {
    var (scheme, rest) := SchemeSplit(url);
    var netloc := NetlocOf(rest);
    if ('[' in netloc) != (']' in netloc) then Err("Invalid IPv6 URL")
    else Ok(UrlParts(scheme, netloc))
  }

  /** The part of a netloc after its last '@'. */
  function HostInfo(netloc: string): string
  {
    netloc[LastIndexOf(netloc, '@') + 1..]
  }

  /** The host inside the brackets when there are some, and before the first ':' otherwise. */
  function HostPart(hostinfo: string): string
  {
    var b := FirstIndex(hostinfo, '[');
    if b < |hostinfo| then
      var bracketed := hostinfo[b + 1..];
      bracketed[..FirstIndex(bracketed, ']')]
    else hostinfo[..FirstIndex(hostinfo, ':')]
  }

  /** None for an empty host; otherwise the host lower-cased up to a '%' zone. */
  function LowerHost(host: string): (r: Option<string>)
    ensures r.Some? ==> r.value != ""
  {
    if host == "" then None
    else
      var z := FirstIndex(host, '%');
      Some(Lower(host[..z]) + host[z..])
  }

  /** The hostname attribute of a split URL. */
  function HostName(netloc: string): (r: Option<string>)
    ensures r.Some? ==> r.value != ""
  {
    LowerHost(HostPart(HostInfo(netloc)))
  }

  predicate Digits(s: string)
  {
    s != [] && forall i :: 0 <= i < |s| ==> IsDigit(s[i])
  }

  /**
   * Python int() on a string: surrounding whitespace, an optional sign and ASCII digits;
   * None stands for the ValueError.
   */
  function PyInt(s: string): (r: Option<int>)
  {
    var t := Strip(s);
    if t != [] && t[0] in "+-" then
      if Digits(t[1..]) then
        var n: int := DigitsValue(t[1..]);
        Some(if t[0] == '-' then -n else n)
      else None
    else if Digits(t) then Some(DigitsValue(t))
    else None
  }

  /** The text of the ValueError int() raises. */
  function IntLiteralError(s: string): string
  {
    "invalid literal for int() with base 10: " + PyRepr(VStr(s))
  }

  /** The second dot-separated label of a host (split('.')[1]) that starts with "172.". */
  function SecondLabel(host: string): string
    requires StartsWith(host, "172.")
  {
    var rest := host[4..];
    rest[..FirstIndex(rest, '.')]
  }

  /**
   * The private-address test on a hostname: loopback, 10/8, 192.168/16, link-local, the two
   * local names, and 172.16 to 172.31; Err carries the ValueError of a non-numeric second label.
   */
  function PrivateHost(host: string): Result<bool, string>
  {
    if StartsWith(host, "127.") || StartsWith(host, "10.") || StartsWith(host, "192.168.")
       || host == "localhost" || host == "0.0.0.0" || StartsWith(host, "169.254.") then Ok(true)
    else if StartsWith(host, "172.") then
      var second := SecondLabel(host);
      match PyInt(second)
      case None => Err(IntLiteralError(second))
      case Some(n) => Ok(16 <= n <= 31)
    else Ok(false)
  }

  /** Why a URL is refused before any request is made. */
  datatype Rejection = NotAString | MissingPart | PrivateAddress | ParseFailure(reason: string)

  /**
   * The checks fetch_resource_data and validate_resource_url share: a non-empty string, then
   * stripped, with a scheme and a netloc, and not naming a private host. Ok holds the URL the
   * request would be made to.
   */
  function CheckUrl(arg: Value): (r: Result<string, Rejection>)
    ensures r.Ok? ==> arg.VStr? && arg.s != "" && r.value == Strip(arg.s)
    ensures r.Ok? ==> var parts := SplitUrl(Strip(arg.s));
      parts.Ok? && parts.value.scheme != "" && parts.value.netloc != ""
  {
    if !(arg.VStr? && arg.s != "") then Err(NotAString)
    else
      var url := Strip(arg.s);
      match SplitUrl(url)
      case Err(e) => Err(ParseFailure(e))
      case Ok(parts) =>
        if parts.scheme == "" || parts.netloc == "" then Err(MissingPart)
        else HostVerdict(url, HostName(parts.netloc))
  }

  /** The security check on the hostname, when there is one. */
  function HostVerdict(url: string, host: Option<string>): (r: Result<string, Rejection>)
    ensures r.Ok? <==> host.None? || PrivateHost(host.value) == Ok(false)
    ensures r.Ok? ==> r.value == url
    ensures r.Err? ==> r.error == PrivateAddress || r.error.ParseFailure?
  {
    match host
    case None => Ok(url)
    case Some(h) =>
      match PrivateHost(h)
      case Err(e) => Err(ParseFailure(e))
      case Ok(isPrivate) => if isPrivate then Err(PrivateAddress) else Ok(url)
  }

  /** The error type each entry point reports for a rejection. */
  function RejectionType(rejection: Rejection, formatType: string): string
  {
    match rejection
    case NotAString => "validation_error"
    case MissingPart => formatType
    case PrivateAddress => "security_error"
    case ParseFailure(_) => "url_parsing_error"
  }

  function RejectionMessage(rejection: Rejection, argName: string): string
  {
    match rejection
    case NotAString => argName + " must be a non-empty string"
    case MissingPart => "Invalid URL format"
    case PrivateAddress => "Access to private/internal URLs is not allowed"
    case ParseFailure(reason) => "Failed to parse URL: " + reason
  }

  /** The URL a rejection reports: the argument as given, or stripped once it was a string. */
  function ReportedUrl(arg: Value, rejection: Rejection): Value
  {
    if !rejection.NotAString? && arg.VStr? then VStr(Strip(arg.s)) else arg
  }

  /** fetch_resource_data up to its first request: Ok(url) goes on to download from url. */
  function FetchResourceCheck(arg: Value): Result<string, Value>
  {
    match CheckUrl(arg)
    case Ok(url) => Ok(url)
    case Err(rejection) =>
      Err(VDict([("success", VBool(false)),
                 ("error", VDict([("type", VStr(RejectionType(rejection, "url_validation_error"))),
                                  ("message", VStr(RejectionMessage(rejection, "resource_url"))),
                                  ("resource_url", ReportedUrl(arg, rejection))]))]))
  }

  /** validate_resource_url up to its HEAD request: Ok(url) goes on to request url. */
  function ValidateUrlCheck(arg: Value): Result<string, Value>
  {
    match CheckUrl(arg)
    case Ok(url) => Ok(url)
    case Err(rejection) =>
      Err(VDict([("success", VBool(false)),
                 ("accessible", VBool(false)),
                 ("url", ReportedUrl(arg, rejection)),
                 ("error", VDict([("type", VStr(RejectionType(rejection, "url_format_error"))),
                                  ("message", VStr(RejectionMessage(rejection, "url")))]))]))
  }

  // ---------------------------------------------------------------- what the URL checks mean

  lemma DigitCharValue(d: nat)
    requires d < 10
    ensures IsDigit(DigitChar(d)) && DigitChar(d) as int - '0' as int == d
  {
    if d == 0 {} else if d == 1 {} else if d == 2 {} else if d == 3 {} else if d == 4 {}
    else if d == 5 {} else if d == 6 {} else if d == 7 {} else if d == 8 {} else {}
  }

  /** Reading a decimal rendering back gives the number: renderings of distinct numbers differ. */
  lemma {:induction false} DecimalRoundTrip(n: nat)
    ensures Digits(NatToString(n))
    ensures DigitsValue(NatToString(n)) == n
    decreases n
  {
    var s := NatToString(n);
    if n < 10 {
      DigitCharValue(n);
      assert s == [DigitChar(n)];
      assert s[..0] == [];
    } else {
      DecimalRoundTrip(n / 10);
      DigitCharValue(n % 10);
      assert s[..|s| - 1] == NatToString(n / 10);
    }
  }

  /** A decimal rendering is its own int(): no whitespace, no sign, only digits. */
  lemma IntOfDecimal(n: nat)
    ensures PyInt(NatToString(n)) == Some(n)
  {
    var s := NatToString(n);
    DecimalRoundTrip(n);
    StripDigits(s);
    assert s[0] !in "+-";
  }

  lemma StripDigits(s: string)
    requires Digits(s)
    ensures Strip(s) == s
  {
    assert !IsSpace(s[0]) && !IsSpace(s[|s| - 1]);
    assert TrimStart(s) == s;
    assert TrimEnd(s) == s;
  }

  /** Two digit runs each followed by a dot: they agree exactly when the runs are equal. */
  lemma DigitsThenDot(a: string, x: string, p: string, q: string)
    requires Digits(a) && Digits(p)
    ensures StartsWith(a + "." + x, p + "." + q) <==> a == p && StartsWith(x, q)
    ensures a + "." + x == p + "." + q <==> a == p && x == q
  {
    var s := a + "." + x;
    var t := p + "." + q;
    assert s[..|a|] == a && s[|a| + 1..] == x && s[|a|] == '.';
    assert t[..|p|] == p && t[|p| + 1..] == q && t[|p|] == '.';
    if |a| < |p| {
      assert s[|a|] != t[|a|];
    } else if |a| > |p| {
      assert s[|p|] != t[|p|];
    } else {
      if StartsWith(s, t) {
        assert s[..|a|] == t[..|p|];
        assert x[..|q|] == s[|a| + 1..|t|] == t[|p| + 1..];
      }
      if a == p && StartsWith(x, q) {
        assert s[..|t|] == a + "." + x[..|q|];
      }
    }
  }

  /** A rendering equals a numeral exactly when the number is the numeral's value. */
  lemma DecimalIs(n: nat, m: nat)
    ensures NatToString(n) == NatToString(m) <==> n == m
  {
    DecimalRoundTrip(n);
    DecimalRoundTrip(m);
  }

  /** The host a.b.c.d of four decimal numbers. */
  function DottedQuad(a: nat, b: nat, c: nat, d: nat): string
  {
    NatToString(a) + "." + (NatToString(b) + "." + (NatToString(c) + "." + NatToString(d)))
  }

  /** The private and local IPv4 ranges the check is meant to refuse, stated on numbers. */
  predicate PrivateRange(a: nat, b: nat, c: nat, d: nat)
  {
    a == 127 || a == 10 || (a == 192 && b == 168) || (a == 0 && b == 0 && c == 0 && d == 0)
    || (a == 169 && b == 254) || (a == 172 && 16 <= b <= 31)
  }

  lemma FirstLabelIs(a: nat, rest: string, n: nat, numeral: string)
    requires numeral == NatToString(n)
    ensures StartsWith(NatToString(a) + "." + rest, numeral + "." + "") <==> a == n
  {
    DecimalRoundTrip(a);
    DecimalRoundTrip(n);
    DigitsThenDot(NatToString(a), rest, numeral, "");
    DecimalIs(a, n);
  }

  lemma TwoLabelsAre(a: nat, b: nat, rest: string, n: nat, m: nat, first: string, second: string)
    requires first == NatToString(n) && second == NatToString(m)
    ensures StartsWith(NatToString(a) + "." + (NatToString(b) + "." + rest), first + "." + (second + "." + ""))
      <==> a == n && b == m
  {
    DecimalRoundTrip(a);
    DecimalRoundTrip(n);
    DigitsThenDot(NatToString(a), NatToString(b) + "." + rest, first, second + "." + "");
    FirstLabelIs(b, rest, m, second);
    DecimalIs(a, n);
  }

  lemma AllZeroHost(a: nat, b: nat, c: nat, d: nat)
    ensures DottedQuad(a, b, c, d) == "0.0.0.0" <==> a == 0 && b == 0 && c == 0 && d == 0
  {
    var z := NatToString(0);
    assert z == "0";
    assert "0.0.0.0" == z + "." + (z + "." + (z + "." + z));
    DecimalRoundTrip(a);
    DecimalRoundTrip(b);
    DecimalRoundTrip(c);
    DecimalRoundTrip(d);
    DecimalRoundTrip(0);
    DigitsThenDot(NatToString(a), NatToString(b) + "." + (NatToString(c) + "." + NatToString(d)), z, z + "." + (z + "." + z));
    DigitsThenDot(NatToString(b), NatToString(c) + "." + NatToString(d), z, z + "." + z);
    DigitsThenDot(NatToString(c), NatToString(d), z, z);
    DecimalIs(a, 0);
    DecimalIs(b, 0);
    DecimalIs(c, 0);
    DecimalIs(d, 0);
  }

  lemma SecondLabelOfQuad(second: string, rest: string)
    requires Digits(second)
    ensures var host := "172." + (second + "." + rest);
      StartsWith(host, "172.") && SecondLabel(host) == second
  {
    var host := "172." + (second + "." + rest);
    var x := second + "." + rest;
    assert host[4..] == x;
    var k := FirstIndex(x, '.');
    assert x[|second|] == '.';
    assert k == |second|;
    assert x[..k] == second;
  }

  lemma TwoDigits(x: nat, y: nat)
    requires 0 < x < 10 && y < 10
    ensures NatToString(10 * x + y) == [DigitChar(x), DigitChar(y)]
  {
    assert (10 * x + y) / 10 == x && (10 * x + y) % 10 == y;
  }

  lemma ThreeDigits(x: nat, y: nat, z: nat)
    requires 0 < x < 10 && y < 10 && z < 10
    ensures NatToString(100 * x + 10 * y + z) == [DigitChar(x), DigitChar(y), DigitChar(z)]
  {
    assert (100 * x + 10 * y + z) / 10 == 10 * x + y && (100 * x + 10 * y + z) % 10 == z;
    TwoDigits(x, y);
  }

  lemma Numerals()
    ensures NatToString(127) == "127" && NatToString(10) == "10" && NatToString(172) == "172"
    ensures NatToString(192) == "192" && NatToString(168) == "168"
    ensures NatToString(169) == "169" && NatToString(254) == "254"
  {
    ThreeDigits(1, 2, 7);
    TwoDigits(1, 0);
    ThreeDigits(1, 7, 2);
    ThreeDigits(1, 9, 2);
    ThreeDigits(1, 6, 8);
    ThreeDigits(1, 6, 9);
    ThreeDigits(2, 5, 4);
  }

  lemma OneLabelPrefixes(a: nat, rest: string)
    ensures var host := NatToString(a) + "." + rest;
      && (StartsWith(host, "127.") <==> a == 127)
      && (StartsWith(host, "10.") <==> a == 10)
      && (StartsWith(host, "172.") <==> a == 172)
  {
    Numerals();
    assert "127." == "127" + "." + "" && "10." == "10" + "." + "" && "172." == "172" + "." + "";
    FirstLabelIs(a, rest, 127, "127");
    FirstLabelIs(a, rest, 10, "10");
    FirstLabelIs(a, rest, 172, "172");
  }

  lemma DottedPrefixes()
    ensures "192.168." == "192" + "." + ("168" + "." + "")
    ensures "169.254." == "169" + "." + ("254" + "." + "")
  {
  }

  lemma TwoLabelPrefixes(a: nat, b: nat, rest: string)
    ensures var host := NatToString(a) + "." + (NatToString(b) + "." + rest);
      && (StartsWith(host, "192.168.") <==> a == 192 && b == 168)
      && (StartsWith(host, "169.254.") <==> a == 169 && b == 254)
  {
    Numerals();
    DottedPrefixes();
    TwoLabelsAre(a, b, rest, 192, 168, "192", "168");
    TwoLabelsAre(a, b, rest, 169, 254, "169", "254");
  }

  /**
   * On a dotted-quad host the prefix tests are exactly the numeric ranges: the host is refused
   * when its address is loopback, 10/8, 192.168/16, 0.0.0.0, link-local or 172.16/12, and no
   * such host makes int() fail.
   */
  lemma DottedQuadPrivate(a: nat, b: nat, c: nat, d: nat)
    ensures PrivateHost(DottedQuad(a, b, c, d)) == Ok(PrivateRange(a, b, c, d))
  {
    var host := DottedQuad(a, b, c, d);
    var tail := NatToString(c) + "." + NatToString(d);
    var rest := NatToString(b) + "." + tail;
    OneLabelPrefixes(a, rest);
    TwoLabelPrefixes(a, b, tail);
    AllZeroHost(a, b, c, d);
    DecimalRoundTrip(a);
    assert host != "localhost" by {
      assert IsDigit(host[0]);
    }
    if a == 172 {
      Numerals();
      DecimalRoundTrip(b);
      SecondLabelOfQuad(NatToString(b), tail);
      IntOfDecimal(b);
    }
  }

  /** int() is reached only for a host starting "172.", and fails exactly on a non-numeric second label. */
  lemma PrivateHostFailure(host: string)
    ensures PrivateHost(host).Err? <==> StartsWith(host, "172.") && PyInt(SecondLabel(host)).None?
    ensures PrivateHost(host).Err? ==> PrivateHost(host).error == IntLiteralError(SecondLabel(host))
  {
    if StartsWith(host, "172.") {
      assert host[..4] == "172.";
      assert host[0] == '1' && host[1] == '7';
      assert !StartsWith(host, "127.") by { assert "127."[1] == '2'; }
      assert !StartsWith(host, "10.") by { assert "10."[1] == '0'; }
      assert !StartsWith(host, "192.168.") by { assert "192.168."[1] == '9'; }
      assert !StartsWith(host, "169.254.") by { assert "169.254."[1] == '6'; }
      assert host != "localhost" by { assert "localhost"[0] == 'l'; }
      assert host != "0.0.0.0" by { assert "0.0.0.0"[0] == '0'; }
    }
  }

  /** The characters of a plain host name: lower-case letters, digits, dots and hyphens. */
  predicate HostChar(c: char)
  {
    ('a' <= c <= 'z') || ('0' <= c <= '9') || c == '.' || c == '-'
  }

  predicate PlainHost(host: string)
  {
    host != [] && forall i :: 0 <= i < |host| ==> HostChar(host[i])
  }

  /** A path that may follow the host: empty, or from a '/' to a non-space character. */
  predicate PlainPath(path: string)
  {
    path == [] || (path[0] == '/' && !IsSpace(path[|path| - 1]))
  }

  lemma PlainHostName(host: string)
    requires PlainHost(host)
    ensures HostInfo(host) == host && HostPart(host) == host
    ensures LowerHost(host) == Some(host) && HostName(host) == Some(host)
  {
    assert forall j :: 0 <= j < |host| ==> host[j] !in "@[:%" by {
      forall j | 0 <= j < |host| ensures host[j] !in "@[:%" {
        assert HostChar(host[j]);
      }
    }
    assert LastIndexOf(host, '@') == -1;
    assert host[0..] == host;
    assert FirstIndex(host, '[') == |host|;
    assert FirstIndex(host, ':') == |host|;
    assert host[..|host|] == host;
    PlainLowerHost(host);
  }

  lemma PlainLowerHost(host: string)
    requires PlainHost(host)
    ensures LowerHost(host) == Some(host)
  {
    assert forall j :: 0 <= j < |host| ==> host[j] != '%' && !('A' <= host[j] <= 'Z') by {
      forall j | 0 <= j < |host| ensures host[j] != '%' && !('A' <= host[j] <= 'Z') {
        assert HostChar(host[j]);
      }
    }
    assert FirstIndex(host, '%') == |host|;
    assert host[..|host|] == host && host[|host|..] == [];
    LowerKeeps(host);
    assert Lower(host[..|host|]) + host[|host|..] == host;
  }

  lemma WebScheme(scheme: string)
    requires (scheme == "http" || scheme == "https")
    ensures |scheme| > 0 && forall k :: 0 <= k < |scheme| ==> 'a' <= scheme[k] <= 'z'
    ensures Lower(scheme) == scheme
  {
    LowerKeeps(scheme);
  }

  lemma WebUrlShape(scheme: string, host: string, path: string)
    ensures var url := scheme + "://" + host + path;
      && url == scheme + ":" + ("//" + host + path)
      && url[..|scheme|] == scheme && url[|scheme| + 1..] == "//" + host + path
  {
  }

  /** The first ':' of a URL whose scheme is made of letters is the one after the scheme. */
  lemma FindColon(scheme: string, rest: string)
    requires |scheme| > 0 && forall k :: 0 <= k < |scheme| ==> 'a' <= scheme[k] <= 'z'
    ensures Find(scheme + ":" + rest, ":") == |scheme|
  {
    var url := scheme + ":" + rest;
    assert OccursAt(url, ":", |scheme|) by {
      assert url[|scheme|..|scheme| + 1] == [':'];
    }
    forall j | 0 <= j < |scheme| ensures !OccursAt(url, ":", j) {
      assert url[j..j + 1][0] == url[j] == scheme[j];
    }
  }

  lemma NetlocOfPlainHost(host: string, path: string)
    requires PlainHost(host) && PlainPath(path)
    ensures var rest := "//" + host + path;
      && StartsWith(rest, "//") && NetlocEnd(rest, 2) == 2 + |host| && rest[2..2 + |host|] == host
      && '[' !in host && ']' !in host
  {
    var rest := "//" + host + path;
    assert rest[..2] == "//";
    forall j | 2 <= j < 2 + |host| ensures rest[j] !in "/?#" {
      assert rest[j] == host[j - 2];
      assert HostChar(host[j - 2]);
    }
    assert 2 + |host| == |rest| || rest[2 + |host|] == '/';
    assert rest[2..2 + |host|] == host;
    forall j | 0 <= j < |host| ensures host[j] != '[' && host[j] != ']' {
      assert HostChar(host[j]);
    }
  }

  lemma SplitWebUrl(scheme: string, host: string, path: string)
    requires (scheme == "http" || scheme == "https") && PlainHost(host) && PlainPath(path)
    ensures SplitUrl(scheme + "://" + host + path) == Ok(UrlParts(scheme, host))
  {
    var url := scheme + "://" + host + path;
    var rest := "//" + host + path;
    WebScheme(scheme);
    WebUrlShape(scheme, host, path);
    FindColon(scheme, rest);
    assert AsciiLetter(url[0]);
    assert SchemeSplit(url) == (scheme, rest);
    NetlocOfPlainHost(host, path);
    assert NetlocOf(rest) == host;
  }

  lemma StripWebUrl(scheme: string, host: string, path: string)
    requires (scheme == "http" || scheme == "https") && PlainHost(host) && PlainPath(path)
    ensures Strip(scheme + "://" + host + path) == scheme + "://" + host + path
  {
    var url := scheme + "://" + host + path;
    WebScheme(scheme);
    assert !IsSpace(url[0]);
    assert !IsSpace(url[|url| - 1]) by {
      if path == [] {
        assert url[|url| - 1] == host[|host| - 1];
        assert HostChar(host[|host| - 1]);
      }
    }
    assert TrimStart(url) == url;
    assert TrimEnd(url) == url;
  }

  /**
   * An http(s) URL with a plain host is decided by the host alone: refused when the host is
   * private, a parse failure when int() fails on it, and otherwise passed on unchanged.
   */
  lemma WebUrlVerdict(scheme: string, host: string, path: string)
    requires (scheme == "http" || scheme == "https") && PlainHost(host) && PlainPath(path)
    ensures var url := scheme + "://" + host + path;
      CheckUrl(VStr(url)) == HostVerdict(url, Some(host))
  {
    SplitWebUrl(scheme, host, path);
    StripWebUrl(scheme, host, path);
    PlainHostName(host);
    WebScheme(scheme);
    CheckOfSplit(scheme + "://" + host + path, scheme, host);
  }

  /** A string that is already stripped and splits into a scheme and a netloc is judged by its host. */
  lemma CheckOfSplit(url: string, scheme: string, netloc: string)
    requires url != "" && Strip(url) == url && SplitUrl(url) == Ok(UrlParts(scheme, netloc))
    requires scheme != "" && netloc != ""
    ensures CheckUrl(VStr(url)) == HostVerdict(url, HostName(netloc))
  {
  }

  lemma DotJoinPlain(x: string, y: string)
    requires PlainHost(x) && PlainHost(y)
    ensures PlainHost(x + "." + y)
  {
    var z := x + "." + y;
    forall i | 0 <= i < |z| ensures HostChar(z[i]) {
      if i < |x| { assert z[i] == x[i]; }
      else if i > |x| { assert z[i] == y[i - |x| - 1]; }
    }
  }

  lemma DecimalIsPlain(n: nat)
    ensures PlainHost(NatToString(n))
  {
    var s := NatToString(n);
    assert forall i :: 0 <= i < |s| ==> HostChar(s[i]);
  }

  lemma DottedQuadIsPlain(a: nat, b: nat, c: nat, d: nat)
    ensures PlainHost(DottedQuad(a, b, c, d))
  {
    DecimalIsPlain(a);
    DecimalIsPlain(b);
    DecimalIsPlain(c);
    DecimalIsPlain(d);
    DotJoinPlain(NatToString(c), NatToString(d));
    DotJoinPlain(NatToString(b), NatToString(c) + "." + NatToString(d));
    DotJoinPlain(NatToString(a), NatToString(b) + "." + (NatToString(c) + "." + NatToString(d)));
  }

  /**
   * An http(s) URL to an IPv4 address is refused exactly when the address lies in one of the
   * private or local ranges; any other such URL goes ahead unchanged.
   */
  lemma IPv4UrlVerdict(scheme: string, a: nat, b: nat, c: nat, d: nat, path: string)
    requires (scheme == "http" || scheme == "https") && PlainPath(path)
    ensures var url := scheme + "://" + DottedQuad(a, b, c, d) + path;
      CheckUrl(VStr(url)) == if PrivateRange(a, b, c, d) then Err(PrivateAddress) else Ok(url)
  {
    var host := DottedQuad(a, b, c, d);
    DottedQuadIsPlain(a, b, c, d);
    WebUrlVerdict(scheme, host, path);
    DottedQuadPrivate(a, b, c, d);
    VerdictOfHost(scheme + "://" + host + path, host, PrivateRange(a, b, c, d));
  }

  lemma VerdictOfHost(url: string, host: string, isPrivate: bool)
    requires PrivateHost(host) == Ok(isPrivate)
    ensures HostVerdict(url, Some(host)) == if isPrivate then Err(PrivateAddress) else Ok(url)
  {
  }

  lemma LastIndexAt(s: string, c: char, k: nat)
    requires k < |s| && s[k] == c && forall j :: k < j < |s| ==> s[j] != c
    ensures LastIndexOf(s, c) == k
  {
  }

  lemma LastAtAfterUser(user: string, hostport: string)
    requires '@' !in hostport
    ensures LastIndexOf(user + "@" + hostport, '@') == |user|
  {
    var netloc := user + "@" + hostport;
    AtBeforeHost(user, hostport, netloc);
    LastIndexAt(netloc, '@', |user|);
  }

  lemma AtBeforeHost(user: string, hostport: string, netloc: string)
    requires '@' !in hostport && netloc == user + "@" + hostport
    ensures |user| < |netloc| && netloc[|user|] == '@'
    ensures forall j :: |user| < j < |netloc| ==> netloc[j] != '@'
  {
    forall j | |user| < j < |netloc| ensures netloc[j] != '@' {
      assert netloc[j] == hostport[j - |user| - 1];
    }
  }

  /** User information before the last '@' and a numeric port after the host do not change the host. */
  lemma HostIgnoresUserAndPort(user: string, host: string, port: string)
    requires PlainHost(host) && forall i :: 0 <= i < |port| ==> IsDigit(port[i])
    ensures HostName(user + "@" + host + ":" + port) == Some(host)
  {
    var netloc := user + "@" + host + ":" + port;
    var hostinfo := host + ":" + port;
    HostPortChars(host, port);
    LastAtAfterUser(user, hostinfo);
    assert netloc == user + "@" + hostinfo;
    assert HostInfo(netloc) == hostinfo;
    assert hostinfo[..|host|] == host;
    assert HostPart(hostinfo) == host;
    PlainLowerHost(host);
  }

  lemma HostPortChars(host: string, port: string)
    requires PlainHost(host) && forall i :: 0 <= i < |port| ==> IsDigit(port[i])
    ensures var hostinfo := host + ":" + port;
      && '@' !in hostinfo && FirstIndex(hostinfo, '[') == |hostinfo| && FirstIndex(hostinfo, ':') == |host|
  {
    var hostinfo := host + ":" + port;
    forall j | 0 <= j < |hostinfo| ensures hostinfo[j] != '@' && hostinfo[j] != '[' && (j != |host| ==> hostinfo[j] != ':') {
      if j < |host| {
        assert hostinfo[j] == host[j];
        assert HostChar(host[j]);
      } else if j > |host| {
        assert hostinfo[j] == port[j - |host| - 1];
      }
    }
    assert hostinfo[|host|] == ':';
  }

  /** A blank string passes the emptiness test but strips to nothing, so it has no scheme. */
  lemma BlankUrlMissingPart(s: string)
    requires s != "" && IsBlank(s)
    ensures CheckUrl(VStr(s)) == Err(MissingPart)
  {
    StripEmptyIffBlank(s);
    assert SchemeSplit("") == ("", "");
  }

  /** A string without ':' or brackets (a bare "example.com/data.csv") has no scheme and is refused. */
  lemma NoSchemeMissingPart(s: string)
    requires s != "" && var t := Strip(s); ':' !in t && '[' !in t && ']' !in t
    ensures CheckUrl(VStr(s)) == Err(MissingPart)
  {
    NoColonNoScheme(Strip(s));
  }

  lemma NoColonNoScheme(t: string)
    requires ':' !in t && '[' !in t && ']' !in t
    ensures SplitUrl(t) == Ok(UrlParts("", NetlocOf(t)))
  {
    forall i | 0 <= i < |t| ensures !OccursAt(t, ":", i) {
      assert t[i..i + 1][0] == t[i];
    }
    assert SchemeSplit(t) == ("", t);
    var n := NetlocOf(t);
    assert forall k :: 0 <= k < |n| ==> n[k] in t;
  }

  /**
   * Both entry points apply the same rules: they let the same URLs through, and report the
   * same kind of rejection apart from the name of the format error.
   */
  lemma EntryPointsAgree(arg: Value)
    ensures FetchResourceCheck(arg).Ok? <==> ValidateUrlCheck(arg).Ok?
    ensures FetchResourceCheck(arg).Ok? ==> FetchResourceCheck(arg) == ValidateUrlCheck(arg)
  {
  }

  // ---------------------------------------------------------------- search queries

  /** One clause of build_search_query, in the kind of part it writes. */
  datatype Criterion =
    | Keywords(key: string)                   // the stripped text itself
    | Quoted(key: string, field: string)      // field:"text"
    | UpperQuoted(key: string, field: string) // field:"TEXT"
    | From(key: string, field: string)        // field:[text TO *]
    | Until(key: string, field: string)       // field:[* TO text]
    | Listed(key: string)                     // key:"item" for each non-empty string item
    | Extras(key: string)                     // extras_name:"value" for each entry

  /** The clauses in the order the function writes their parts. */
  const Criteria: seq<Criterion> := [
    Keywords("keywords"),
    Quoted("title", "title"), Quoted("notes", "notes"), Quoted("author", "author"),
    Quoted("maintainer", "maintainer"), Quoted("organization", "organization"),
    Quoted("license_id", "license_id"), UpperQuoted("format", "res_format"),
    Listed("tags"), Listed("groups"),
    From("date_created_start", "metadata_created"), Until("date_created_end", "metadata_created"),
    From("date_modified_start", "metadata_modified"), Until("date_modified_end", "metadata_modified"),
    Extras("extras")]

  /** The clauses whose value is read with `criteria.get(key, '').strip()`. */
  predicate IsStripped(c: Criterion)
  {
    !c.Listed? && !c.Extras?
  }

  /** `criteria.get(key, '').strip()`: a present value that is not a string raises AttributeError. */
  function StrippedField(criteria: seq<(string, Value)>, key: string): Result<string, string>
  {
    match Get(criteria, key)
    case None => Ok("")
    case Some(v) => if v.VStr? then Ok(Strip(v.s)) else Err(NoAttribute(v, "strip"))
  }

  function QuotedPart(field: string, text: string): string
  {
    field + ":\"" + text + "\""
  }

  /** The part a stripped clause writes for its non-empty text. */
  function Clause(c: Criterion, text: string): string
    requires IsStripped(c)
  {
    match c
    case Keywords(_) => text
    case Quoted(_, field) => QuotedPart(field, text)
    case UpperQuoted(_, field) => QuotedPart(field, Upper(text))
    case From(_, field) => field + ":[" + text + " TO *]"
    case Until(_, field) => field + ":[* TO " + text + "]"
  }

  /** What the tags or groups loop iterates: a truthy string becomes a one-element list. */
  function ListedItems(v: Option<Value>): seq<Value>
  {
    match v
    case None => []
    case Some(x) =>
      if !Truthy(x) then []
      else if x.VStr? then [x]
      else if x.VList? then x.items
      else []
  }

  /** An item is written when it is a non-empty string. */
  predicate WrittenItem(x: Value)
  {
    x.VStr? && x.s != ""
  }

  /** The parts of the tags or groups loop, in item order. */
  function ItemParts(items: seq<Value>, field: string): seq<string>
  {
    if items == [] then []
    else
      var x := items[|items| - 1];
      ItemParts(items[..|items| - 1], field)
        + (if WrittenItem(x) then [QuotedPart(field, Strip(x.s))] else [])
  }

  /** The entries of the extras loop: only a dict is iterated. */
  function ExtrasEntries(v: Option<Value>): seq<(string, Value)>
  {
    match v
    case Some(VDict(entries)) => entries
    case _ => []
  }

  /** The part one extras entry adds: a non-empty key with a truthy value, the value as str() shows it. */
  function ExtraPart(k: string, v: Value): seq<string>
  {
    if k != "" && Truthy(v) then [QuotedPart("extras_" + k, PyStr(v))] else []
  }

  /** The parts of the extras loop. */
  function EntryParts(entries: seq<(string, Value)>): seq<string>
  {
    if entries == [] then []
    else
      var (k, v) := entries[|entries| - 1];
      EntryParts(entries[..|entries| - 1]) + ExtraPart(k, v)
  }

  /** The parts one clause adds, or what it raised. */
  function CriterionParts(c: Criterion, criteria: seq<(string, Value)>): Result<seq<string>, string>
  {
    match c
    case Listed(key) => Ok(ItemParts(ListedItems(Get(criteria, key)), key))
    case Extras(key) => Ok(EntryParts(ExtrasEntries(Get(criteria, key))))
    case _ =>
      match StrippedField(criteria, c.key)
      case Err(e) => Err(e)
      case Ok(text) => Ok(if text == "" then [] else [Clause(c, text)])
  }

  /** The parts so far extended by one clause; the first raise ends the function. */
  function Extend(sofar: Result<seq<string>, string>, c: Criterion, criteria: seq<(string, Value)>)
    : Result<seq<string>, string>
  {
    match sofar
    case Err(e) => Err(e)
    case Ok(parts) =>
      match CriterionParts(c, criteria)
      case Err(e) => Err(e)
      case Ok(more) => Ok(parts + more)
  }

  /** The parts of the clauses `cs`, in order. */
  function QueryParts(cs: seq<Criterion>, criteria: seq<(string, Value)>): Result<seq<string>, string>
  {
    if cs == [] then Ok([])
    else Extend(QueryParts(cs[..|cs| - 1], criteria), cs[|cs| - 1], criteria)
  }

  /** build_search_query: "*" without parts, else the parts joined with " AND ". */
  function SearchQuery(criteria: seq<(string, Value)>): Result<string, string>
  {
    match QueryParts(Criteria, criteria)
    case Err(e) => Err(e)
    case Ok(parts) => Ok(if parts == [] then "*" else Join(parts, " AND "))
  }

  /** The tags or groups loop, appending to `parts`. */
  method AppendItems(parts: seq<string>, items: seq<Value>, field: string) returns (r: seq<string>)
    ensures r == parts + ItemParts(items, field)
  {
    r := parts;
    for i := 0 to |items|
      invariant r == parts + ItemParts(items[..i], field)
    {
      assert items[..i + 1][..i] == items[..i];
      var x := items[i];
      if x.VStr? && x.s != "" {
        r := r + [QuotedPart(field, Strip(x.s))];
      }
    }
    assert items[..|items|] == items;
  }

  /** The extras loop, appending to `parts`. */
  method AppendExtras(parts: seq<string>, entries: seq<(string, Value)>) returns (r: seq<string>)
    ensures r == parts + EntryParts(entries)
  {
    r := parts;
    for i := 0 to |entries|
      invariant r == parts + EntryParts(entries[..i])
    {
      assert entries[..i + 1][..i] == entries[..i];
      var (k, v) := entries[i];
      r := r + ExtraPart(k, v);
    }
    assert entries[..|entries|] == entries;
  }

  /** One clause of the function body, appending to `parts`. */
  method AppendCriterion(parts: seq<string>, c: Criterion, criteria: seq<(string, Value)>)
    returns (r: Result<seq<string>, string>)
    ensures r == Extend(Ok(parts), c, criteria)
  {
    if c.Listed? {
      var more := AppendItems(parts, ListedItems(Get(criteria, c.key)), c.key);
      assert CriterionParts(c, criteria) == Ok(ItemParts(ListedItems(Get(criteria, c.key)), c.key));
      r := Ok(more);
    } else if c.Extras? {
      var more := AppendExtras(parts, ExtrasEntries(Get(criteria, c.key)));
      assert CriterionParts(c, criteria) == Ok(EntryParts(ExtrasEntries(Get(criteria, c.key))));
      r := Ok(more);
    } else {
      var field := StrippedField(criteria, c.key);
      assert CriterionParts(c, criteria) ==
        match field
        case Err(e) => Err(e)
        case Ok(text) => Ok(if text == "" then [] else [Clause(c, text)]);
      if field.Err? {
        r := Err(field.error);
        } else if field.value == "" {
        assert parts + [] == parts;
        r := Ok(parts);
      } else {
        r := Ok(parts + [Clause(c, field.value)]);
        }
    }
  }

  /** The clauses `cs` run one after the other, stopping at the first raise. */
  method AppendAll(cs: seq<Criterion>, criteria: seq<(string, Value)>) returns (r: Result<seq<string>, string>)
    ensures r == QueryParts(cs, criteria)
  {
    var parts: seq<string> := [];
    for i := 0 to |cs|
      invariant QueryParts(cs[..i], criteria) == Ok(parts)
    {
      assert cs[..i + 1][..i] == cs[..i];
      var next := AppendCriterion(parts, cs[i], criteria);
      if next.Err? {
        ErrorStays(cs, i + 1, criteria);
        return next;
      }
      parts := next.value;
    }
    assert cs[..|cs|] == cs;
    r := Ok(parts);
  }

  /** build_search_query. */
  method BuildSearchQuery(criteria: seq<(string, Value)>) returns (r: Result<string, string>)
    ensures r == SearchQuery(criteria)
  {
    var parts := AppendAll(Criteria, criteria);
    if parts.Err? {
      r := Err(parts.error);
    } else if parts.value == [] {
      r := Ok("*");
    } else {
      r := Ok(Join(parts.value, " AND "));
    }
  }

  /** Once a clause has raised, the later clauses do not run: the whole result is that raise. */
  lemma {:induction false} ErrorStays(cs: seq<Criterion>, n: nat, criteria: seq<(string, Value)>)
    requires n <= |cs| && QueryParts(cs[..n], criteria).Err?
    ensures QueryParts(cs, criteria) == QueryParts(cs[..n], criteria)
    decreases |cs| - n
  {
    if n < |cs| {
      assert cs[..n + 1][..n] == cs[..n];
      ErrorStays(cs, n + 1, criteria);
    } else {
      assert cs[..n] == cs;
    }
  }

  /** Parts written one after the other: the first raise wins. */
  function Concat(first: Result<seq<string>, string>, second: Result<seq<string>, string>): Result<seq<string>, string>
  {
    match first
    case Err(e) => Err(e)
    case Ok(p) =>
      match second
      case Err(e) => Err(e)
      case Ok(q) => Ok(p + q)
  }

  lemma ExtendConcat(first: Result<seq<string>, string>, second: Result<seq<string>, string>,
                     c: Criterion, criteria: seq<(string, Value)>)
    ensures Extend(Concat(first, second), c, criteria) == Concat(first, Extend(second, c, criteria))
  {
    if first.Ok? && second.Ok? && CriterionParts(c, criteria).Ok? {
      var more := CriterionParts(c, criteria).value;
      assert first.value + second.value + more == first.value + (second.value + more);
    }
  }

  /**
   * The clauses write their parts in list order: the parts of a longer clause list are those
   * of its first clauses followed by those of the rest.
   */
  lemma {:induction false} QueryPartsAppend(a: seq<Criterion>, b: seq<Criterion>, criteria: seq<(string, Value)>)
    ensures QueryParts(a + b, criteria) == Concat(QueryParts(a, criteria), QueryParts(b, criteria))
    decreases |b|
  {
    if b == [] {
      assert a + b == a;
      if QueryParts(a, criteria).Ok? {
        assert QueryParts(a, criteria).value + [] == QueryParts(a, criteria).value;
      }
    } else {
      var b' := b[..|b| - 1];
      var c := b[|b| - 1];
      assert (a + b)[..|a + b| - 1] == a + b';
      assert (a + b)[|a + b| - 1] == c;
      QueryPartsAppend(a, b', criteria);
      ExtendConcat(QueryParts(a, criteria), QueryParts(b', criteria), c, criteria);
    }
  }

  /** A clause raises exactly when it reads a present value that is not a string. */
  predicate Raises(c: Criterion, criteria: seq<(string, Value)>)
  {
    IsStripped(c) && Get(criteria, c.key).Some? && !Get(criteria, c.key).value.VStr?
  }

  /** One clause raises exactly when it is stripped and reads a present non-string. */
  lemma CriterionRaises(c: Criterion, criteria: seq<(string, Value)>)
    ensures CriterionParts(c, criteria).Err? <==> Raises(c, criteria)
  {
  }

  /**
   * The function raises exactly when one of its stripped clauses meets a present value that
   * is not a string, and then with the AttributeError of the first such clause.
   */
  lemma {:induction false} QueryRaisesIff(cs: seq<Criterion>, criteria: seq<(string, Value)>)
    ensures QueryParts(cs, criteria).Err? <==> exists i :: 0 <= i < |cs| && Raises(cs[i], criteria)
  {
    if cs != [] {
      var init := cs[..|cs| - 1];
      QueryRaisesIff(init, criteria);
      assert forall i :: 0 <= i < |init| ==> init[i] == cs[i];
      CriterionRaises(cs[|cs| - 1], criteria);
    }
  }

  /** The raise is the AttributeError of the first clause that meets a non-string. */
  lemma {:induction false} QueryRaisesFirst(cs: seq<Criterion>, criteria: seq<(string, Value)>)
    ensures QueryParts(cs, criteria).Err? ==>
      exists i :: 0 <= i < |cs| && Raises(cs[i], criteria)
        && (forall j :: 0 <= j < i ==> !Raises(cs[j], criteria))
        && QueryParts(cs, criteria).error == NoAttribute(Get(criteria, cs[i].key).value, "strip")
  {
    if cs != [] {
      var init := cs[..|cs| - 1];
      var c := cs[|cs| - 1];
      QueryRaisesFirst(init, criteria);
      assert forall i :: 0 <= i < |init| ==> init[i] == cs[i];
      if QueryParts(init, criteria).Err? {
        var i :| 0 <= i < |init| && Raises(init[i], criteria)
          && (forall j :: 0 <= j < i ==> !Raises(init[j], criteria))
          && QueryParts(init, criteria).error == NoAttribute(Get(criteria, init[i].key).value, "strip");
        assert Raises(cs[i], criteria);
      } else if CriterionParts(c, criteria).Err? {
        QueryRaisesIff(init, criteria);
        CriterionRaises(c, criteria);
        assert forall j :: 0 <= j < |cs| - 1 ==> !Raises(cs[j], criteria);
      }
    }
  }

  /** Every clause reads nothing from an empty criteria dict and writes nothing. */
  lemma {:induction false} NoCriteriaNoParts(cs: seq<Criterion>)
    ensures QueryParts(cs, []) == Ok([])
  {
    if cs != [] {
      NoCriteriaNoParts(cs[..|cs| - 1]);
      assert CriterionParts(cs[|cs| - 1], []) == Ok([]);
      var none: seq<string> := [];
      assert none + none == none;
    }
  }

  /** Without criteria the query is the wildcard. */
  lemma NoCriteriaWildcard()
    ensures SearchQuery([]) == Ok("*")
  {
    NoCriteriaNoParts(Criteria);
  }

  /** The result is "*" exactly when no part is written, or the only part is the keywords "*". */
  lemma WildcardIff(criteria: seq<(string, Value)>)
    requires SearchQuery(criteria).Ok?
    ensures var parts := QueryParts(Criteria, criteria).value;
      SearchQuery(criteria).value == "*" <==> parts == [] || parts == ["*"]
  {
    var parts := QueryParts(Criteria, criteria).value;
    if |parts| >= 2 {
      assert |Join(parts, " AND ")| >= |" AND "|;
    }
  }

  /**
   * A single tag or group string is treated as the one-element list holding it; a blank one
   * is written, stripped to nothing, because the test comes before the strip.
   */
  lemma SingleItemIsList(s: string, field: string)
    ensures ItemParts(ListedItems(Some(VStr(s))), field) == ItemParts(ListedItems(Some(VList([VStr(s)]))), field)
    ensures s != "" && IsBlank(s) ==> ItemParts(ListedItems(Some(VStr(s))), field) == [QuotedPart(field, "")]
  {
    assert [VStr(s)][..0] == [];
    StripEmptyIffBlank(s);
  }

  /**
   * The tags or groups parts are one quoted part per non-empty string item, in order: the
   * items that are written, and no others.
   */
  lemma {:induction false} ItemPartsWritten(items: seq<Value>, field: string)
    ensures |ItemParts(items, field)| == |WrittenItems(items)|
    ensures forall k :: 0 <= k < |ItemParts(items, field)| ==>
      ItemParts(items, field)[k] == QuotedPart(field, Strip(WrittenItems(items)[k].s))
  {
    if items != [] {
      var init := items[..|items| - 1];
      ItemPartsWritten(init, field);
      assert items == init + [items[|items| - 1]];
      WrittenItemsSnoc(init, items[|items| - 1]);
    }
  }

  /** The items the loop writes, in order: an independent filter. */
  function WrittenItems(items: seq<Value>): (r: seq<Value>)
    ensures forall k :: 0 <= k < |r| ==> WrittenItem(r[k])
  {
    if items == [] then []
    else if WrittenItem(items[0]) then [items[0]] + WrittenItems(items[1..])
    else WrittenItems(items[1..])
  }

  lemma {:induction false} WrittenItemsSnoc(items: seq<Value>, x: Value)
    ensures WrittenItems(items + [x]) == WrittenItems(items) + (if WrittenItem(x) then [x] else [])
  {
    if items == [] {
      assert [] + [x] == [x];
    } else {
      assert (items + [x])[1..] == items[1..] + [x];
      WrittenItemsSnoc(items[1..], x);
    }
  }

  /** Keywords are written first, stripped but otherwise as given, whatever query syntax they hold. */
  lemma KeywordsFirst(criteria: seq<(string, Value)>, k: string)
    requires Get(criteria, "keywords") == Some(VStr(k)) && Strip(k) != "" && SearchQuery(criteria).Ok?
    ensures QueryParts(Criteria, criteria).Ok?
    ensures |QueryParts(Criteria, criteria).value| > 0 && QueryParts(Criteria, criteria).value[0] == Strip(k)
  {
    KeywordsLead(Criteria, criteria, k);
  }

  lemma KeywordsLead(cs: seq<Criterion>, criteria: seq<(string, Value)>, k: string)
    requires cs != [] && cs[0] == Keywords("keywords")
    requires Get(criteria, "keywords") == Some(VStr(k)) && Strip(k) != "" && QueryParts(cs, criteria).Ok?
    ensures |QueryParts(cs, criteria).value| > 0 && QueryParts(cs, criteria).value[0] == Strip(k)
  {
    var first := [cs[0]];
    assert cs == first + cs[1..];
    QueryPartsAppend(first, cs[1..], criteria);
    KeywordsAlone(criteria, k);
  }

  lemma KeywordsAlone(criteria: seq<(string, Value)>, k: string)
    requires Get(criteria, "keywords") == Some(VStr(k)) && Strip(k) != ""
    ensures QueryParts([Keywords("keywords")], criteria) == Ok([Strip(k)])
  {
    var first := [Keywords("keywords")];
    assert first[..0] == [];
    var none: seq<string> := [];
    assert QueryParts(first, criteria) == Ok(none + [Strip(k)]);
    assert none + [Strip(k)] == [Strip(k)];
  }

  // ---------------------------------------------------------------- package resources

  /** One processed resource dict; `size` is present only when the raw size was truthy. */
  datatype Resource = Resource(
    id: Value, name: Value, description: Value, url: Value, format: string, created: Value,
    lastModified: Value, mimetype: Value, cacheUrl: Value, resourceType: Value, state: Value,
    hash: Value, size: Option<Value>)

  function GetOr(entries: seq<(string, Value)>, key: string, default: Value): Value
  {
    Get(entries, key).GetOr(default)
  }

  /** A truthy format is upper-cased (a non-string raises AttributeError), else "UNKNOWN". */
  function FormatOf(entries: seq<(string, Value)>): (r: Result<string, string>)
    ensures r.Ok? ==> r.value == "UNKNOWN" || exists f :: Get(entries, "format") == Some(VStr(f)) && f != "" && r.value == Upper(f)
  {
    match Get(entries, "format")
    case None => Ok("UNKNOWN")
    case Some(v) =>
      if !Truthy(v) then Ok("UNKNOWN")
      else if v.VStr? then Ok(Upper(v.s))
      else Err(NoAttribute(v, "upper"))
  }

  /** int(size), or str(size) when int() raises ValueError or TypeError. */
  function SizeOf(v: Value): Value
  {
    match v
    case VInt(i) => VInt(i)
    case VBool(b) => VInt(if b then 1 else 0)
    case VStr(s) => (if PyInt(s).Some? then VInt(PyInt(s).value) else VStr(s))
    case _ => VStr(PyStr(v))
  }

  /** The processed dict of one raw resource dict, or what building it raised. */
  function ResourceOf(entries: seq<(string, Value)>): Result<Resource, string>
  {
    match FormatOf(entries)
    case Err(e) => Err(e)
    case Ok(format) =>
      var raw := Get(entries, "size");
      Ok(Resource(
        GetOr(entries, "id", VStr("")),
        GetOr(entries, "name", GetOr(entries, "description", VStr("Unnamed Resource"))),
        GetOr(entries, "description", VStr("")),
        GetOr(entries, "url", VStr("")),
        format,
        GetOr(entries, "created", VStr("")),
        GetOr(entries, "last_modified", GetOr(entries, "revision_timestamp", VStr(""))),
        GetOr(entries, "mimetype", VStr("")),
        GetOr(entries, "cache_url", VStr("")),
        GetOr(entries, "resource_type", VStr("")),
        GetOr(entries, "state", VStr("")),
        GetOr(entries, "hash", VStr("")),
        if raw.Some? && Truthy(raw.value) then Some(SizeOf(raw.value)) else None))
  }

  predicate WebUrl(s: string)
  {
    StartsWith(s, "http://") || StartsWith(s, "https://")
  }

  /** The URL filter: a truthy URL that is not a string raises AttributeError on startswith. */
  function KeepsUrl(url: Value): Result<bool, string>
  {
    if !Truthy(url) then Ok(false)
    else if url.VStr? then Ok(WebUrl(url.s))
    else Err(NoAttribute(url, "startswith"))
  }

  /** One raw item added to the processed list: non-dicts are skipped. */
  function Select(sofar: Result<seq<Resource>, string>, item: Value): Result<seq<Resource>, string>
  {
    match sofar
    case Err(e) => Err(e)
    case Ok(kept) =>
      if !item.VDict? then Ok(kept)
      else
        match ResourceOf(item.entries)
        case Err(e) => Err(e)
        case Ok(res) =>
          match KeepsUrl(res.url)
          case Err(e) => Err(e)
          case Ok(keep) => Ok(if keep then kept + [res] else kept)
  }

  /** The processed resources of the raw list, in order. */
  function Selected(items: seq<Value>): Result<seq<Resource>, string>
  {
    if items == [] then Ok([])
    else Select(Selected(items[..|items| - 1]), items[|items| - 1])
  }

  /** The resource loop of get_package_resources. */
  method ProcessResources(items: seq<Value>) returns (r: Result<seq<Resource>, string>)
    ensures r == Selected(items)
  {
    var kept: seq<Resource> := [];
    for i := 0 to |items|
      invariant Selected(items[..i]) == Ok(kept)
    {
      assert items[..i + 1][..i] == items[..i];
      var item := items[i];
      if !item.VDict? {
        continue;
      }
      var res := ResourceOf(item.entries);
      if res.Err? {
        SelectionErrorStays(items, i + 1);
        return Err(res.error);
      }
      var keep := KeepsUrl(res.value.url);
      if keep.Err? {
        SelectionErrorStays(items, i + 1);
        return Err(keep.error);
      }
      if keep.value {
        kept := kept + [res.value];
      }
    }
    assert items[..|items|] == items;
    r := Ok(kept);
  }

  lemma {:induction false} SelectionErrorStays(items: seq<Value>, n: nat)
    requires n <= |items| && Selected(items[..n]).Err?
    ensures Selected(items) == Selected(items[..n])
    decreases |items| - n
  {
    if n < |items| {
      assert items[..n + 1][..n] == items[..n];
      SelectionErrorStays(items, n + 1);
    } else {
      assert items[..n] == items;
    }
  }

  /** The package_info dict. */
  datatype PackageInfo = PackageInfo(
    id: Value, name: Value, title: Value, organization: Value, organizationId: Value,
    metadataCreated: Value, metadataModified: Value, state: Value, packageType: Value)

  /** The organization's title (else name) and id; a truthy non-dict raises on get. */
  function OrganizationOf(org: Value): Result<(Value, Value), string>
  {
    if !Truthy(org) then Ok((VStr(""), VStr("")))
    else if org.VDict? then
      Ok((GetOr(org.entries, "title", GetOr(org.entries, "name", VStr(""))), GetOr(org.entries, "id", VStr(""))))
    else Err(NoAttribute(org, "get"))
  }

  function PackageInfoOf(entries: seq<(string, Value)>): Result<PackageInfo, string>
  {
    match OrganizationOf(GetOr(entries, "organization", VDict([])))
    case Err(e) => Err(e)
    case Ok((orgName, orgId)) =>
      Ok(PackageInfo(GetOr(entries, "id", VStr("")), GetOr(entries, "name", VStr("")),
                     GetOr(entries, "title", VStr("")), orgName, orgId,
                     GetOr(entries, "metadata_created", VStr("")), GetOr(entries, "metadata_modified", VStr("")),
                     GetOr(entries, "state", VStr("")), GetOr(entries, "type", VStr(""))))
  }

  /** The formats of the kept resources, without "UNKNOWN" (formats_available, as a set). */
  function KnownFormats(resources: seq<Resource>): set<string>
  {
    set i | 0 <= i < |resources| && resources[i].format != "UNKNOWN" :: resources[i].format
  }

  /** What get_package_resources answers once the package details were retrieved. */
  datatype Listing =
    | EmptyResponse
    | Listing(resources: seq<Resource>, info: PackageInfo, count: nat, totalRaw: nat, formats: set<string>)

  /**
   * get_package_resources after the details request, given the "result" value: an empty one is
   * reported, otherwise the resources are processed and counted. Ok holds the success answer,
   * Err what was raised.
   */
  function PackageResources(packageData: Value): Result<Listing, string>
  {
    if !Truthy(packageData) then Ok(EmptyResponse)
    else if !packageData.VDict? then Err(NoAttribute(packageData, "get"))
    else
      var raw := GetOr(packageData.entries, "resources", VList([]));
      match Iterate(raw)
      case None => Err(NotIterable(raw))
      case Some(items) =>
        match Selected(items)
        case Err(e) => Err(e)
        case Ok(resources) =>
          match PackageInfoOf(packageData.entries)
          case Err(e) => Err(e)
          case Ok(info) => Ok(Listing(resources, info, |resources|, |items|, KnownFormats(resources)))
  }

  /**
   * The processed list keeps only dict items with an http(s) URL, in order, and no more of them
   * than there are raw items.
   */
  lemma {:induction false} SelectedKeepsWebUrls(items: seq<Value>)
    requires Selected(items).Ok?
    ensures |Selected(items).value| <= |items|
    ensures forall r :: r in Selected(items).value ==> r.url.VStr? && WebUrl(r.url.s)
    ensures forall r :: r in Selected(items).value ==>
      exists i :: 0 <= i < |items| && items[i].VDict? && ResourceOf(items[i].entries) == Ok(r)
  {
    if items != [] {
      var init := items[..|items| - 1];
      var x := items[|items| - 1];
      assert Selected(items) == Select(Selected(init), x);
      SelectedKeepsWebUrls(init);
      forall r | r in Selected(items).value
        ensures exists i :: 0 <= i < |items| && items[i].VDict? && ResourceOf(items[i].entries) == Ok(r)
      {
        if r in Selected(init).value {
          var i :| 0 <= i < |init| && init[i].VDict? && ResourceOf(init[i].entries) == Ok(r);
          assert items[i] == init[i];
        } else {
          assert items[|items| - 1] == x;
        }
      }
    }
  }

  /** A raw item that is not a dict is skipped without effect. */
  lemma NonDictSkipped(items: seq<Value>, x: Value)
    requires !x.VDict?
    ensures Selected(items + [x]) == Selected(items)
  {
    assert (items + [x])[..|items|] == items;
  }

  /** An item whose format and URL are strings (or falsy) never raises. */
  predicate StringFields(entries: seq<(string, Value)>)
  {
    (Get(entries, "format").Some? && Truthy(Get(entries, "format").value) ==> Get(entries, "format").value.VStr?)
    && (var url := GetOr(entries, "url", VStr("")); Truthy(url) ==> url.VStr?)
  }

  lemma {:induction false} WellFormedNeverRaises(items: seq<Value>)
    requires forall i :: 0 <= i < |items| && items[i].VDict? ==> StringFields(items[i].entries)
    ensures Selected(items).Ok?
  {
    if items != [] {
      var init := items[..|items| - 1];
      assert forall i :: 0 <= i < |init| ==> init[i] == items[i];
      WellFormedNeverRaises(init);
    }
  }

  /** formats_available holds exactly the formats of the given resources other than "UNKNOWN". */
  lemma KnownFormatsMeaning(resources: seq<Resource>)
    ensures "UNKNOWN" !in KnownFormats(resources)
    ensures forall f :: f in KnownFormats(resources) <==> exists r :: r in resources && r.format == f && f != "UNKNOWN"
  {
    forall f | (exists r :: r in resources && r.format == f && f != "UNKNOWN") ensures f in KnownFormats(resources) {
      var r :| r in resources && r.format == f && f != "UNKNOWN";
      var i :| 0 <= i < |resources| && resources[i] == r;
    }
  }

  /**
   * A successful listing counts the kept resources, which are no more than the raw ones, all
   * with an http(s) URL; the formats offered are those of the kept resources, never "UNKNOWN".
   */
  lemma ListingCounts(packageData: Value)
    requires PackageResources(packageData).Ok? && PackageResources(packageData).value.Listing?
    ensures var l := PackageResources(packageData).value;
      && l.count == |l.resources| <= l.totalRaw
      && "UNKNOWN" !in l.formats
      && (forall f :: f in l.formats <==> exists r :: r in l.resources && r.format == f && f != "UNKNOWN")
      && (forall r :: r in l.resources ==> r.url.VStr? && WebUrl(r.url.s))
  {
    var items := Iterate(GetOr(packageData.entries, "resources", VList([]))).value;
    SelectedKeepsWebUrls(items);
    KnownFormatsMeaning(PackageResources(packageData).value.resources);
  }

  /** A numeric size string becomes the number; any other string is kept as it is. */
  lemma SizeConversion(n: nat, s: string)
    ensures SizeOf(VStr(NatToString(n))) == VInt(n)
    ensures PyInt(s).None? ==> SizeOf(VStr(s)) == VStr(s)
  {
    IntOfDecimal(n);
  }

  // ---------------------------------------------------------------- XML to dict

  /** An XML element: tag, attributes in document order, the text before its first child, children. */
  datatype Element = Element(tag: string, attrib: seq<(string, string)>, text: Option<string>, children: seq<Element>)

  function AttribValue(attrib: seq<(string, string)>): (r: Value)
    ensures r.VDict? && |r.entries| == |attrib|
  {
    if attrib == [] then VDict([])
    else VDict([(attrib[0].0, VStr(attrib[0].1))] + AttribValue(attrib[1..]).entries)
  }

  /** The element's text when it is not blank, stripped. */
  function StrippedText(e: Element): Option<string>
  {
    if e.text.Some? && Strip(e.text.value) != "" then Some(Strip(e.text.value)) else None
  }

  /** The dict before the children are added: the attributes, then the text of a non-leaf. */
  function Head(e: Element): seq<(string, Value)>
  {
    var base := if e.attrib != [] then [("@attributes", AttribValue(e.attrib))] else [];
    if StrippedText(e).Some? then base + [("@text", VStr(StrippedText(e).value))] else base
  }

  /** One child's data added under its tag: a second value makes a list, later ones are appended. */
  function AddChild(result: seq<(string, Value)>, tag: string, data: Value): seq<(string, Value)>
  {
    match Get(result, tag)
    case None => Put(result, tag, data)
    case Some(VList(items)) => Put(result, tag, VList(items + [data]))
    case Some(single) => Put(result, tag, VList([single, data]))
  }

  /** The dict after the first n children of e are added to `result`. */
  function AddChildren(result: seq<(string, Value)>, e: Element, n: nat): seq<(string, Value)>
    requires n <= |e.children|
    decreases e, n
  {
    if n == 0 then result
    else
      var child := e.children[n - 1];
      AddChild(AddChildren(result, e, n - 1), child.tag, XmlDict(child))
  }

  /**
   * _xml_to_dict: the stripped text of a leaf with non-blank text, else the dict of attributes,
   * text and children, else (when that dict is empty) the element's own text.
   */
  function XmlDict(e: Element): (r: Value)
    ensures r.VStr? || r.VNone? || r.VDict?
    decreases e, |e.children| + 1
  {
    if StrippedText(e).Some? && e.children == [] then VStr(StrippedText(e).value)
    else
      var result := AddChildren(Head(e), e, |e.children|);
      if result != [] then VDict(result)
      else if e.text.Some? then VStr(e.text.value)
      else VNone
  }

  /** _xml_to_dict. */
  method XmlToDict(e: Element) returns (r: Value)
    ensures r == XmlDict(e)
    decreases e, 2
  {
    var text := StrippedText(e);
    if text.Some? && e.children == [] {
      return VStr(text.value);
    }
    var result := ConvertChildren(e);
    if result != [] {
      r := VDict(result);
    } else if e.text.Some? {
      r := VStr(e.text.value);
    } else {
      r := VNone;
    }
  }

  /** The loop of _xml_to_dict over the children, starting from the attributes and text. */
  method ConvertChildren(e: Element) returns (result: seq<(string, Value)>)
    ensures result == AddChildren(Head(e), e, |e.children|)
    decreases e, 1
  {
    result := Head(e);
    for i := 0 to |e.children|
      invariant result == AddChildren(Head(e), e, i)
    {
      AddChildrenStep(Head(e), e, i);
      result := ConvertChild(e, i, result);
    }
  }

  /** One pass of the loop: the child's data stored under its tag. */
  method ConvertChild(e: Element, i: nat, result: seq<(string, Value)>) returns (r: seq<(string, Value)>)
    requires i < |e.children|
    ensures r == AddChild(result, e.children[i].tag, XmlDict(e.children[i]))
    decreases e, 0
  {
    var child := e.children[i];
    var data := XmlToDict(child);
    r := StoreChild(result, child.tag, data);
  }

  /** `result[tag] = data`, or the list conversion and append when the tag is already there. */
  method StoreChild(result: seq<(string, Value)>, tag: string, data: Value) returns (r: seq<(string, Value)>)
    ensures r == AddChild(result, tag, data)
  {
    var present := Get(result, tag);
    if present.None? {
      r := Put(result, tag, data);
    } else if present.value.VList? {
      r := Put(result, tag, VList(present.value.items + [data]));
    } else {
      r := Put(result, tag, VList([present.value, data]));
    }
  }

  /** A leaf with non-blank text becomes that text, stripped: its attributes are dropped. */
  lemma LeafIsText(e: Element)
    requires e.children == [] && e.text.Some? && !IsBlank(e.text.value)
    ensures XmlDict(e) == VStr(Strip(e.text.value))
  {
    StripEmptyIffBlank(e.text.value);
  }

  /** An element with no attributes, no children and blank or no text gives back its raw text. */
  lemma EmptyIsRawText(e: Element)
    requires e.attrib == [] && e.children == [] && (e.text.None? || IsBlank(e.text.value))
    ensures XmlDict(e) == if e.text.Some? then VStr(e.text.value) else VNone
  {
    if e.text.Some? {
      StripEmptyIffBlank(e.text.value);
    }
  }

  /** The data of the first n children whose tag is t, in document order. */
  function TaggedData(e: Element, n: nat, t: string): (r: seq<Value>)
    requires n <= |e.children|
    ensures forall i :: 0 <= i < |r| ==> !r[i].VList?
  {
    if n == 0 then []
    else
      var child := e.children[n - 1];
      TaggedData(e, n - 1, t) + (if child.tag == t then [XmlDict(child)] else [])
  }

  /** How a tag's values are stored: absent, a single value, or a list of two or more. */
  function Grouped(values: seq<Value>): Option<Value>
  {
    if |values| == 0 then None
    else if |values| == 1 then Some(values[0])
    else Some(VList(values))
  }

  /**
   * Children sharing a tag are grouped: one child's data is stored as it is, two or more as a
   * list of their data in document order (no child's data is itself a list).
   */
  lemma {:induction false} ChildrenGrouped(result: seq<(string, Value)>, e: Element, n: nat, t: string)
    requires n <= |e.children| && Get(result, t).None?
    ensures Get(AddChildren(result, e, n), t) == Grouped(TaggedData(e, n, t))
  {
    if n > 0 {
      var m: nat := n - 1;
      ChildrenGrouped(result, e, m, t);
      AddChildrenStep(result, e, m);
      TaggedDataStep(e, m, t);
      var child := e.children[m];
      GroupedStep(AddChildren(result, e, m), child.tag, t, TaggedData(e, m, t), XmlDict(child));
    }
  }

  lemma AddChildrenStep(result: seq<(string, Value)>, e: Element, m: nat)
    requires m < |e.children|
    ensures AddChildren(result, e, m + 1) ==
      AddChild(AddChildren(result, e, m), e.children[m].tag, XmlDict(e.children[m]))
  {
  }

  lemma TaggedDataStep(e: Element, m: nat, t: string)
    requires m < |e.children|
    ensures TaggedData(e, m + 1, t) ==
      TaggedData(e, m, t) + (if e.children[m].tag == t then [XmlDict(e.children[m])] else [])
  {
  }

  lemma GroupedStep(before: seq<(string, Value)>, tag: string, t: string, values: seq<Value>, data: Value)
    requires Get(before, t) == Grouped(values)
    requires forall i :: 0 <= i < |values| ==> !values[i].VList?
    ensures Get(AddChild(before, tag, data), t) == Grouped(values + (if tag == t then [data] else []))
  {
    if tag != t {
      assert values + [] == values;
    } else if |values| == 1 {
      assert values + [data] == [values[0], data];
    }
  }

  /** An element's children with a tag other than "@attributes" and "@text" are grouped under it. */
  lemma XmlChildrenGrouped(e: Element, t: string)
    requires t != "@attributes" && t != "@text"
    requires !(StrippedText(e).Some? && e.children == [])
    requires TaggedData(e, |e.children|, t) != []
    ensures XmlDict(e).VDict? && Get(XmlDict(e).entries, t) == Grouped(TaggedData(e, |e.children|, t))
  {
    var head := Head(e);
    assert Get(head, t).None? by {
      forall i | 0 <= i < |head| ensures head[i].0 != t {
      }
    }
    ChildrenGrouped(head, e, |e.children|, t);
  }
}
