/**
 Reading the list files of boxbpf: a line buffer of fixed size, trimming, and
 number parsing as the C library does it.
 */
module CFile {
  import opened Bytes

  // ----- lines -----

  /** What one call of `fgets` takes: up to `n` characters, and no further than a newline. */
  function ChunkLen(text: string, n: nat): (k: nat)
    ensures k <= n && k <= |text| && (n > 0 && text != "" ==> k > 0)
  {
    if n == 0 || text == "" then 0
    else if text[0] == '\n' then 1
    else 1 + ChunkLen(text[1..], n - 1)
  }

  function Chunks(text: string, n: nat): seq<string>
    requires n > 0
    decreases |text|
  {
    if text == "" then [] else [text[..ChunkLen(text, n)]] + Chunks(text[ChunkLen(text, n)..], n)
  }

  predicate IsBlank(c: char) { c == ' ' || c == '\t' || c == '\r' || c == '\n' }

  function SkipBlanks(s: string): string {
    if s != "" && IsBlank(s[0]) then SkipBlanks(s[1..]) else s
  }

  function DropBlanks(s: string): string {
    if s != "" && IsBlank(s[|s| - 1]) then DropBlanks(s[..|s| - 1]) else s
  }

  /** A comment runs to the end of the buffer. */
  function BeforeComment(s: string): string {
    if s == "" || s[0] == '#' then "" else [s[0]] + BeforeComment(s[1..])
  }

  function TrimLine(line: string): string { DropBlanks(SkipBlanks(BeforeComment(line))) }

  // ----- numbers -----

  predicate IsDigit(c: char) { '0' <= c <= '9' }

  predicate IsSpace(c: char) { IsBlank(c) || c == '\U{0b}' || c == '\U{0c}' }

  function Digits(s: string): (n: nat)
    ensures n <= |s|
  {
    if s != "" && IsDigit(s[0]) then 1 + Digits(s[1..]) else 0
  }

  function SkipSpaces(s: string): string {
    if s != "" && IsSpace(s[0]) then SkipSpaces(s[1..]) else s
  }

  function ValueOf(digits: string): nat
    requires Digits(digits) == |digits|
  {
    if digits == "" then 0
    else
      DigitsPrefix(digits, |digits| - 1);
      AllDigits(digits);
      ValueOf(digits[..|digits| - 1]) * 10 + (digits[|digits| - 1] as int - '0' as int)
  }

  lemma {:induction false} DigitsPrefix(s: string, n: nat)
    requires n <= Digits(s)
    ensures Digits(s[..n]) == n
  {
    if n > 0 {
      assert s[..n][1..] == s[1..][..n - 1];
      DigitsPrefix(s[1..], n - 1);
    }
  }

  const ULONG: int := 0x1_0000_0000_0000_0000

  /** Leading space, a sign, digits; too large a value is cut to the largest, and a
      minus sign negates in unsigned arithmetic.  No digits at all is no number. */
  function Strtoul(s: string): Option<nat> {
    var t := SkipSpaces(s);
    var negative := t != "" && t[0] == '-';
    var u := if negative || (t != "" && t[0] == '+') then t[1..] else t;
    var n := Digits(u);
    if n == 0 then None
    else
      DigitsPrefix(u, n);
      var v := ValueOf(u[..n]);
      Some(if v >= ULONG then ULONG - 1 else if negative then (ULONG - v) % ULONG else v)
  }

  function ParseUid(line: string): Option<u32> {
    var value := TrimLine(line);
    if value == "" then None else
      match Strtoul(value)
      case None => None
      case Some(n) => if n >= U32 then None else Some(n)
  }

  /** The library's address parsers. */
  datatype Pton = Pton(v4: string -> Option<seq<byte>>, v6: string -> Option<seq<byte>>)

  function IndexOf(s: string, c: char): (i: Option<nat>)
    ensures i.Some? ==> i.value < |s| && s[i.value] == c && c !in s[..i.value]
    ensures i.Some? <==> c in s
  {
    if s == "" then None
    else if s[0] == c then Some(0)
    else match IndexOf(s[1..], c) case None => None case Some(i) => Some(i + 1)
  }

  datatype ParsedCidr = V4Cidr(addr: seq<byte>, prefix: nat) | V6Cidr(addr: seq<byte>, prefix: nat)

  function ParseCidr(pton: Pton, line: string): Option<ParsedCidr> {
    var value := TrimLine(line);
    match IndexOf(value, '/')
    case None => None
    case Some(slash) =>
      var host := value[..slash];
      match Strtoul(value[slash + 1..])
      case None => None
      case Some(prefix) =>
        if IndexOf(host, ':').Some? then
          match pton.v6(host)
          case None => None
          case Some(a) => if prefix > 128 || |a| != 16 then None else Some(V6Cidr(a, prefix))
        else
          match pton.v4(host)
          case None => None
          case Some(a) => if prefix > 32 || |a| != 4 then None else Some(V4Cidr(a, prefix))
  }

  // ----- the entries of a file -----

  function UidsOf(chunks: seq<string>): seq<u32> {
    if chunks == [] then []
    else (match ParseUid(chunks[0]) case None => [] case Some(u) => [u]) + UidsOf(chunks[1..])
  }

  const UID_LINE: nat := 127
  const CIDR_LINE: nat := 255

  /** No file, or a file that cannot be opened, has no entries. */
  function UidEntries(file: Option<string>): seq<u32> {
    match file case None => [] case Some(text) => UidsOf(Chunks(text, UID_LINE))
  }

  /** The bits an entry is filed under, if it is of the family. */
  function KeyBits(e: Option<ParsedCidr>, ipv6: bool): seq<seq<bool>> {
    match e
    case None => []
    case Some(V4Cidr(a, p)) => if !ipv6 && p <= |Bits(a)| then [Bits(a)[..p]] else []
    case Some(V6Cidr(a, p)) => if ipv6 && p <= |Bits(a)| then [Bits(a)[..p]] else []
  }

  function CidrsOf(pton: Pton, chunks: seq<string>, ipv6: bool): seq<seq<bool>> {
    if chunks == [] then [] else KeyBits(ParseCidr(pton, chunks[0]), ipv6) + CidrsOf(pton, chunks[1..], ipv6)
  }

  function CidrEntries(pton: Pton, file: Option<string>, ipv6: bool): seq<seq<bool>> {
    match file case None => [] case Some(text) => CidrsOf(pton, Chunks(text, CIDR_LINE), ipv6)
  }

  // ----- numbers written and read back -----

  function Decimal(n: nat): (s: string)
    ensures s != "" && Digits(s) == |s|
  {
    var c := ('0' as int + n % 10) as char;
    if n < 10 then DigitsAppend("", c); [c] else DigitsAppend(Decimal(n / 10), c); Decimal(n / 10) + [c]
  }

  lemma {:induction false} DigitsAppend(s: string, c: char)
    requires Digits(s) == |s| && IsDigit(c)
    ensures Digits(s + [c]) == |s| + 1
  {
    if s != "" {
      assert (s + [c])[1..] == s[1..] + [c];
      DigitsAppend(s[1..], c);
    } else {
      assert s + [c] == [c];
    }
  }

  lemma {:induction false} DecimalValue(n: nat)
    ensures ValueOf(Decimal(n)) == n
  {
    if n >= 10 {
      DecimalValue(n / 10);
      var s := Decimal(n);
      assert s[..|s| - 1] == Decimal(n / 10);
    } else {
      assert Decimal(n)[..0] == "";
    }
  }

  lemma {:induction false} AllDigits(s: string)
    requires Digits(s) == |s|
    ensures forall i :: 0 <= i < |s| ==> IsDigit(s[i])
  {
    if s != "" {
      AllDigits(s[1..]);
      forall i | 0 < i < |s| ensures IsDigit(s[i]) {
        assert s[i] == s[1..][i - 1];
      }
    }
  }

  lemma {:induction false} NoComment(s: string)
    requires forall i :: 0 <= i < |s| ==> s[i] != '#'
    ensures BeforeComment(s) == s
  {
    if s != "" {
      NoComment(s[1..]);
    }
  }

  /** A line loses its newline; there is nothing else to trim at the ends. */
  lemma TrimmedLine(s: string)
    requires s != "" && '#' !in s && !IsBlank(s[0]) && !IsBlank(s[|s| - 1])
    ensures TrimLine(s + "\n") == s
  {
    var line := s + "\n";
    NoComment(line);
    assert SkipBlanks(line) == line;
    assert line[..|line| - 1] == s;
    assert DropBlanks(line) == DropBlanks(s) == s;
  }

  lemma StrtoulDecimal(n: nat)
    requires n < ULONG
    ensures Strtoul(Decimal(n)) == Some(n)
  {
    var d := Decimal(n);
    AllDigits(d);
    assert SkipSpaces(d) == d && d[..|d|] == d;
    DecimalValue(n);
  }

  /** A line with a number and its newline is read as that number. */
  lemma ParseDecimalLine(n: u32)
    ensures ParseUid(Decimal(n) + "\n") == Some(n)
  {
    AllDigits(Decimal(n));
    TrimmedLine(Decimal(n));
    StrtoulDecimal(n);
  }

  /** The file boxctl writes: one number a line. */
  function UidFile(uids: seq<u32>): string {
    if uids == [] then "" else Decimal(uids[0]) + "\n" + UidFile(uids[1..])
  }

  lemma {:induction false} ChunkIsLine(d: string, rest: string, n: nat)
    requires |d| < n && forall i :: 0 <= i < |d| ==> d[i] != '\n'
    ensures ChunkLen(d + "\n" + rest, n) == |d| + 1
    decreases |d|
  {
    if d == "" {
      assert (d + "\n" + rest)[0] == '\n';
    } else {
      assert (d + "\n" + rest)[1..] == d[1..] + "\n" + rest;
      ChunkIsLine(d[1..], rest, n - 1);
    }
  }

  lemma {:induction false} DecimalShort(n: nat, k: nat)
    requires k > 0 && n < Power10(k)
    ensures |Decimal(n)| <= k
  {
    if n >= 10 {
      DecimalShort(n / 10, k - 1);
    }
  }

  function Power10(k: nat): nat { if k == 0 then 1 else 10 * Power10(k - 1) }

  lemma TenDigits(n: u32)
    ensures |Decimal(n)| <= 10
  {
    assert Power10(4) == 10000 && Power10(7) == 10000000;
    assert Power10(10) == 10000000000;
    DecimalShort(n, 10);
  }

  /** What boxctl writes is what boxbpf reads. */
  lemma {:induction false} UidFileRoundTrip(uids: seq<u32>)
    ensures UidEntries(Some(UidFile(uids))) == uids
    decreases |uids|
  {
    if uids != [] {
      var d, rest := Decimal(uids[0]), UidFile(uids[1..]);
      var text := d + "\n" + rest;
      TenDigits(uids[0]);
      AllDigits(d);
      ChunkIsLine(d, rest, UID_LINE);
      assert text[..|d| + 1] == d + "\n" && text[|d| + 1..] == rest;
      ParseDecimalLine(uids[0]);
      UidFileRoundTrip(uids[1..]);
    }
  }

  // ----- a list of networks -----

  /** The lines of a list: a network, a bare address, or a comment. */
  datatype CidrLine = NetLine(host: string, prefix: nat) | HostLine(host: string) | CommentLine(text: string)

  predicate Plain(host: string) { host != "" && forall c | c in host :: c != '#' && c != '/' && !IsBlank(c) }

  function Written(line: CidrLine): string {
    match line
    case NetLine(host, prefix) => host + "/" + Decimal(prefix)
    case HostLine(host) => host
    case CommentLine(text) => "#" + text
  }

  /** A line that one call of `fgets` takes whole. */
  predicate Fitting(line: CidrLine) {
    && |Written(line)| <= 254
    && match line
       case NetLine(host, prefix) => Plain(host) && prefix < ULONG
       case HostLine(host) => Plain(host)
       case CommentLine(text) => '\n' !in text
  }

  function CidrFile(lines: seq<CidrLine>): string {
    if lines == [] then "" else Written(lines[0]) + "\n" + CidrFile(lines[1..])
  }

  /** The address of a line, by the parser for its family. */
  function AddressOf(pton: Pton, host: string): Option<seq<byte>> {
    var a := if ':' in host then pton.v6(host) else pton.v4(host);
    if a.Some? && |a.value| == (if ':' in host then 16 else 4) then a else None
  }

  /** The network of a line, if it has one of the family: its first bits. */
  function NetworkOf(pton: Pton, line: CidrLine, ipv6: bool): seq<seq<bool>> {
    if line.NetLine? && (':' in line.host) == ipv6 && AddressOf(pton, line.host).Some?
       && line.prefix <= (if ipv6 then 128 else 32)
    then [Bits(AddressOf(pton, line.host).value)[..line.prefix]]
    else []
  }

  function NetworksOf(pton: Pton, lines: seq<CidrLine>, ipv6: bool): seq<seq<bool>> {
    if lines == [] then [] else NetworkOf(pton, lines[0], ipv6) + NetworksOf(pton, lines[1..], ipv6)
  }

  lemma {:induction false} SlashAt(host: string, d: string)
    requires '/' !in host
    ensures IndexOf(host + "/" + d, '/') == Some(|host|)
    ensures (host + "/" + d)[..|host|] == host && (host + "/" + d)[|host| + 1..] == d
    decreases |host|
  {
    if host != "" {
      assert host[0] in host && (host + "/" + d)[1..] == host[1..] + "/" + d;
      SlashAt(host[1..], d);
    }
  }

  lemma NetLineParsed(pton: Pton, host: string, prefix: nat)
    requires Plain(host) && prefix < ULONG
    ensures ParseCidr(pton, host + "/" + Decimal(prefix) + "\n")
         == match AddressOf(pton, host)
            case None => None
            case Some(a) =>
              if ':' in host then (if prefix > 128 then None else Some(V6Cidr(a, prefix)))
              else if prefix > 32 then None else Some(V4Cidr(a, prefix))
  {
    var d := Decimal(prefix);
    var s := host + "/" + d;
    AllDigits(d);
    assert s[0] == host[0] && s[|s| - 1] == d[|d| - 1] && host[0] in host;
    TrimmedLine(s);
    SlashAt(host, d);
    StrtoulDecimal(prefix);
  }

  lemma OtherLineParsed(pton: Pton, line: CidrLine)
    requires Fitting(line) && !line.NetLine?
    ensures ParseCidr(pton, Written(line) + "\n") == None
  {
    match line
    case HostLine(host) =>
      assert host[0] in host && host[|host| - 1] in host;
      TrimmedLine(host);
    case CommentLine(text) =>
      assert (Written(line) + "\n")[0] == '#';
      assert TrimLine(Written(line) + "\n") == "";
  }

  lemma LineKey(pton: Pton, line: CidrLine, ipv6: bool)
    requires Fitting(line)
    ensures KeyBits(ParseCidr(pton, Written(line) + "\n"), ipv6) == NetworkOf(pton, line, ipv6)
  {
    if line.NetLine? {
      NetLineParsed(pton, line.host, line.prefix);
    } else {
      OtherLineParsed(pton, line);
    }
  }

  lemma LineUnbroken(line: CidrLine)
    requires Fitting(line)
    ensures '\n' !in Written(line)
  {
    if line.NetLine? {
      AllDigits(Decimal(line.prefix));
    }
  }

  /** A list yields the prefix bits of each network of the family, in order: the other
      family, bare addresses and comments are passed over. */
  lemma {:induction false} CidrFileMeans(pton: Pton, lines: seq<CidrLine>, ipv6: bool)
    requires forall line | line in lines :: Fitting(line)
    ensures CidrEntries(pton, Some(CidrFile(lines)), ipv6) == NetworksOf(pton, lines, ipv6)
    decreases |lines|
  {
    if lines != [] {
      var d, rest := Written(lines[0]), CidrFile(lines[1..]);
      var text := d + "\n" + rest;
      assert Fitting(lines[0]);
      LineUnbroken(lines[0]);
      ChunkIsLine(d, rest, CIDR_LINE);
      assert text[..|d| + 1] == d + "\n" && text[|d| + 1..] == rest;
      assert Chunks(text, CIDR_LINE) == [d + "\n"] + Chunks(rest, CIDR_LINE);
      LineKey(pton, lines[0], ipv6);
      CidrFileMeans(pton, lines[1..], ipv6);
    }
  }

  lemma {:induction false} ChunkFull(s: string, rest: string, n: nat)
    requires |s| == n && '\n' !in s
    ensures ChunkLen(s + rest, n) == n
    decreases n
  {
    if n > 0 {
      assert s[0] in s && (s + rest)[1..] == s[1..] + rest;
      ChunkFull(s[1..], rest, n - 1);
    }
  }

  /** A comment longer than the buffer: what is behind the first 255 characters is read
      as a line of its own. */
  lemma LongCommentRead(pton: Pton, text: string, line: CidrLine, ipv6: bool)
    requires |text| == 254 && '\n' !in text && Fitting(line)
    ensures CidrEntries(pton, Some("#" + text + Written(line) + "\n"), ipv6) == NetworkOf(pton, line, ipv6)
  {
    var head, d := "#" + text, Written(line) + "\n";
    var whole := head + d;
    assert "#" + text + Written(line) + "\n" == whole;
    assert '\n' !in head;
    ChunkFull(head, d, CIDR_LINE);
    assert whole[..255] == head && whole[255..] == d;
    assert head[0] == '#' && TrimLine(head) == "";
    LineUnbroken(line);
    assert d == d + "";
    ChunkIsLine(Written(line), "", CIDR_LINE);
    assert d[..|d|] == d && d[|d|..] == "";
    assert Chunks(whole, CIDR_LINE) == [head] + Chunks(d, CIDR_LINE) && Chunks(d, CIDR_LINE) == [d] + Chunks("", CIDR_LINE);
    assert Chunks(whole, CIDR_LINE) == [head, d];
    LineKey(pton, line, ipv6);
    assert IndexOf("", '/') == None && ParseCidr(pton, head) == None;
    assert CidrsOf(pton, [d], ipv6) == NetworkOf(pton, line, ipv6) by {
      assert [d][1..] == [] && CidrsOf(pton, [], ipv6) == [];
    }
    assert [head, d][1..] == [d];
  }
}
