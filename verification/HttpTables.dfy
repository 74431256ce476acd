/** The tables of the parser, against their characters. */
module HttpTables {
  import opened Bytes
  import opened HttpChars
  import opened HttpTypes
  import opened HttpStep
  import opened HttpRequestLine

  /** The bytes of an ASCII text. */
  function Ascii(s: string): (w: seq<byte>)
    requires forall i :: 0 <= i < |s| ==> s[i] < 128 as char
    ensures |w| == |s| && forall i :: 0 <= i < |s| ==> w[i] == s[i] as int
  {
    seq(|s|, i requires 0 <= i < |s| => s[i] as int)
  }

  /** The name of every method. */
  function Spelling(m: Method): (s: string)
    ensures forall i :: 0 <= i < |s| ==> s[i] < 128 as char
  {
    match m
    case DELETE => "DELETE"
    case GET => "GET"
    case HEAD => "HEAD"
    case POST => "POST"
    case PUT => "PUT"
    case CONNECT => "CONNECT"
    case OPTIONS => "OPTIONS"
    case TRACE => "TRACE"
    case COPY => "COPY"
    case LOCK => "LOCK"
    case MKCOL => "MKCOL"
    case MOVE => "MOVE"
    case PROPFIND => "PROPFIND"
    case PROPPATCH => "PROPPATCH"
    case UNLOCK => "UNLOCK"
    case REPORT => "REPORT"
    case MKACTIVITY => "MKACTIVITY"
    case CHECKOUT => "CHECKOUT"
    case MERGE => "MERGE"
    case MSEARCH => "M-SEARCH"
    case NOTIFY => "NOTIFY"
    case SUBSCRIBE => "SUBSCRIBE"
    case UNSUBSCRIBE => "UNSUBSCRIBE"
    case PATCH => "PATCH"
  }

  lemma MethodSpelling(m: Method)
    ensures MethodString(m) == Ascii(Spelling(m))
  {
  }

  /** The names and values that the parser looks for in headers. */
  lemma HeaderSpelling()
    ensures PROXY_CONNECTION == Ascii("proxy-connection") && CONNECTION == Ascii("connection")
    ensures CONTENT_LENGTH == Ascii("content-length") && TRANSFER_ENCODING == Ascii("transfer-encoding")
    ensures HttpChars.UPGRADE == Ascii("upgrade")
    ensures CHUNKED == Ascii("chunked") && KEEP_ALIVE == Ascii("keep-alive") && CLOSE == Ascii("close")
    ensures HTTP_SLASH == Ascii("HTTP/")
  {
  }

  predicate Among(b: byte, s: string) { exists i :: 0 <= i < |s| && b == s[i] as int }

  /** What is no token (RFC 2616 section 2.2) is a control character, a separator, or no ASCII; of the separators the
      parser takes the space, the double quote, the slash and the closing brace for tokens. A token is read in lower
      case. */
  lemma TokenTable(b: byte)
    ensures Token(b) == 0 <==> b < 32 || b >= 127 || Among(b, "()<>@,;:\\[]?={")
    ensures Token(b) != 0 ==> Token(b) == if 'A' as int <= b <= 'Z' as int then b + 32 else b
  {
    if Among(b, "()<>@,;:\\[]?={") { Separator(b); }
    if 32 <= b < 127 && Token(b) == 0 { Separators(b); }
  }

  lemma Separator(b: byte)
    requires Among(b, "()<>@,;:\\[]?={")
    ensures Token(b) == 0
  {
  }

  lemma Separators(b: byte)
    requires 32 <= b < 127 && Token(b) == 0
    ensures Among(b, "()<>@,;:\\[]?={")
  {
    var s := "()<>@,;:\\[]?={";
    if b == 40 { assert b == s[0] as int; }
    if b == 41 { assert b == s[1] as int; }
    if b == 60 { assert b == s[2] as int; }
    if b == 62 { assert b == s[3] as int; }
    if b == 64 { assert b == s[4] as int; }
    if b == 44 { assert b == s[5] as int; }
    if b == 59 { assert b == s[6] as int; }
    if b == 58 { assert b == s[7] as int; }
    if b == 92 { assert b == s[8] as int; }
    if b == 91 { assert b == s[9] as int; }
    if b == 93 { assert b == s[10] as int; }
    if b == 63 { assert b == s[11] as int; }
    if b == 61 { assert b == s[12] as int; }
    if b == 123 { assert b == s[13] as int; }
  }

  /** URL characters are the visible ones but for the two marks; a lenient parser takes what is no ASCII, too. Host
      names are letters, digits, dots and dashes; there a lenient parser takes the underscore, too. */
  lemma UrlTable(strict: bool, b: byte)
    ensures IsUrlChar(strict, b) <==>
      b != '#' as int && b != '?' as int && (32 < b < 127 || (!strict && b >= 128))
    ensures IsHostChar(strict, b) <==>
      || 'a' as int <= b <= 'z' as int || 'A' as int <= b <= 'Z' as int || '0' as int <= b <= '9' as int
      || b == '.' as int || b == '-' as int || (!strict && b == '_' as int)
  {
  }

  /** Hexadecimal digits of either case; what is no ASCII counts as 0. */
  lemma HexTable(b: byte)
    ensures Unhex(b) ==
      if '0' as int <= b <= '9' as int then b - '0' as int
      else if 'a' as int <= b <= 'f' as int then b - 'a' as int + 10
      else if 'A' as int <= b <= 'F' as int then b - 'A' as int + 10
      else if b >= 128 then 0 else -1
  {
  }

  /** A number that does not fit wraps around. */
  lemma WrapsAround(x: int)
    ensures (Wrap64(x) - x) % 0x1_0000_0000_0000_0000 == 0
  {
  }
}
