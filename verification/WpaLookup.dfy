/**
 The lookup, line by line, on the files of `WpaFile`: it returns the first matching block's
 passphrase and key management, exactly when that block's SSID mentions no other keyword.
 */
module WpaLookup {
  import opened Common
  import opened CText
  import opened HexText
  import opened WpaConf
  import opened WpaFile

  // ---------------------------------------------------------------- lines

  /** The lookup over lines already split. */
  function Scan(bodies: seq<string>, s: Search, ssid: string, hex: string, junk: nat -> string): Search
    decreases |bodies|, 0
  {
    if bodies == [] then s
    else Next(LineStep(s, bodies[0] + "\n", ssid, hex, junk(|Text(bodies)|)), bodies[1..], ssid, hex, junk)
  }

  function Next(answer: Answer, bodies: seq<string>, ssid: string, hex: string, junk: nat -> string): Search
    decreases |bodies|, 1
  {
    if answer.Done? then answer.search else Scan(bodies, answer.search, ssid, hex, junk)
  }

  /** Reading by a bounded line buffer sees exactly the lines, as long as they fit. */
  lemma {:induction false} TextScan(bodies: seq<string>, s: Search, ssid: string, hex: string, junk: nat -> string)
    requires forall i | 0 <= i < |bodies| :: Fits(bodies[i])
    ensures Lookup(Text(bodies), s, ssid, hex, junk) == Scan(bodies, s, ssid, hex, junk)
  {
    if bodies != [] {
      var line, rest := bodies[0] + "\n", Text(bodies[1..]);
      FgetsLine(bodies[0], rest, 256);
      assert Text(bodies) == line + rest;
      assert (line + rest)[|line|..] == rest;
      match LineStep(s, line, ssid, hex, junk(|Text(bodies)|))
      case Done(_) =>
      case More(t) => TextScan(bodies[1..], t, ssid, hex, junk);
    }
  }

  lemma {:induction false} ScanSkips(a: seq<string>, b: seq<string>, s: Search,
                                     ssid: string, hex: string, junk: nat -> string)
    requires forall i, unwritten | 0 <= i < |a| :: LineStep(s, a[i] + "\n", ssid, hex, unwritten) == More(s)
    ensures Scan(a + b, s, ssid, hex, junk) == Scan(b, s, ssid, hex, junk)
  {
    if a == [] {
      assert a + b == b;
    } else {
      assert (a + b)[1..] == a[1..] + b;
      ScanSkips(a[1..], b, s, ssid, hex, junk);
    }
  }

  lemma ScanFirst(body: string, b: seq<string>, s: Search, ssid: string, hex: string, junk: nat -> string)
    ensures Scan([body] + b, s, ssid, hex, junk)
         == Next(LineStep(s, body + "\n", ssid, hex, junk(|Text([body] + b)|)), b, ssid, hex, junk)
  {
    assert ([body] + b)[1..] == b;
  }

  lemma PlainHas(body: string, base: string)
    requires '\n' !in base
    ensures Has(body + "\n", base + "=") <==> Has(body, base + "=")
  {
    assert body + "\n" == body + ['\n'] + "";
    HasSplits(body, '\n', "", base + "=");
    HasNeedsEquals("", base);
  }

  /** Before the wanted SSID is seen, a line without "ssid=" changes nothing. */
  lemma LooseStep(body: string, s: Search, ssid: string, hex: string, junk: string)
    requires !s.found && !Has(body, SSID + "=")
    ensures LineStep(s, body + "\n", ssid, hex, junk) == More(s)
  {
    PlainHas(body, SSID);
  }

  lemma PlainStep(body: string, s: Search, ssid: string, hex: string, junk: string)
    requires FillerOk(Plain(body))
    ensures LineStep(s, body + "\n", ssid, hex, junk) == More(s)
  {
    PlainHas(body, SSID);
    PlainHas(body, PSK);
    PlainHas(body, PROTO);
    PlainHas(body, MGMT);
  }

  /** A line that is none of the four kinds, as far as the code can tell, changes nothing. */
  lemma QuietStep(line: string, s: Search, ssid: string, hex: string, junk: string)
    requires Has(line, SSID + "=") && '=' in line ==> !ValueMatches(Value(line), ssid, hex)
    requires !Has(line, PSK + "=") && !Has(line, MGMT + "=")
    requires Has(line, PROTO + "=") ==> !SameIgnoringCase(WordOr(line, PROTO + "=", 19, junk), "RSN")
    ensures LineStep(s, line, ssid, hex, junk) == More(s)
  {
  }

  lemma DigitNeverMatches(v: string, ssid: string, hex: string)
    requires |v| == 1 && v[0] != '"' && |hex| % 2 == 0
    ensures !ValueMatches(v, ssid, hex)
  {
  }

  /** A line that contains "ssid=" with a value that matches nothing changes nothing. */
  lemma OtherSsidStep(name: string, v: string, s: Search, ssid: string, hex: string, junk: string)
    requires name == "\tscan_ssid" || name == "\tbssid"
    requires '=' !in v && Free(v, STOPS) && !ValueMatches(v, ssid, hex)
    ensures LineStep(s, name + "=" + v + "\n", ssid, hex, junk) == More(s)
  {
    OtherSsidHas(name, v, PSK);
    OtherSsidHas(name, v, PROTO);
    OtherSsidHas(name, v, MGMT);
    OtherSsidName(name);
    ValueReads(name, v);
    QuietStep(name + "=" + v + "\n", s, ssid, hex, junk);
  }

  /** `scan_ssid=1`: one digit is never the hexadecimal form of anything. */
  lemma ScanSsidStep(on: bool, s: Search, ssid: string, hex: string, junk: string)
    requires |hex| % 2 == 0
    ensures LineStep(s, FillerBody(ScanSsid(on)) + "\n", ssid, hex, junk) == More(s)
  {
    var v := if on then "1" else "0";
    DigitNeverMatches(v, ssid, hex);
    OtherSsidStep("\tscan_ssid", v, s, ssid, hex, junk);
  }

  /** `bssid=` with an address: neither quoted nor hexadecimal. */
  lemma BssidStep(mac: string, s: Search, ssid: string, hex: string, junk: string)
    requires FillerOk(Bssid(mac))
    ensures LineStep(s, FillerBody(Bssid(mac)) + "\n", ssid, hex, junk) == More(s)
  {
    var i :| 0 <= i < |mac| && mac[i] == ':';
    assert Nibble(mac[i]) < 0;
    assert mac[0] in mac;
    OtherSsidStep("\tbssid", mac, s, ssid, hex, junk);
  }

  lemma WordLine(base: string, word: string, more: string, cap: nat)
    requires base != "" && base[0] !in SPACES && Word(word) && |word| <= cap && Rest(more)
    ensures ScanWord("\t" + base + "=" + (word + more) + "\n", base + "=", cap) == Some(word)
  {
    ScanWordReads(base + "=", word, more + "\n", cap);
    assert "\t" + base + "=" + (word + more) + "\n" == "\t" + (base + "=") + word + (more + "\n");
  }

  lemma OtherProtoStep(f: Filler, s: Search, ssid: string, hex: string, junk: string)
    requires f.OtherProto? && FillerOk(f)
    ensures LineStep(s, FillerBody(f) + "\n", ssid, hex, junk) == More(s)
  {
    var v := f.word + f.more;
    BareHas(PROTO, v, SSID);
    BareHas(PROTO, v, PSK);
    BareHas(PROTO, v, MGMT);
    WordLine(PROTO, f.word, f.more, 19);
    QuietStep(FillerBody(f) + "\n", s, ssid, hex, junk);
  }

  lemma FillerStep(f: Filler, s: Search, ssid: string, hex: string, junk: string)
    requires FillerOk(f) && |hex| % 2 == 0
    ensures LineStep(s, FillerBody(f) + "\n", ssid, hex, junk) == More(s)
  {
    match f
    case Plain(body) => PlainStep(body, s, ssid, hex, junk);
    case ScanSsid(on) => ScanSsidStep(on, s, ssid, hex, junk);
    case Bssid(mac) => BssidStep(mac, s, ssid, hex, junk);
    case OtherProto(_, _) => OtherProtoStep(f, s, ssid, hex, junk);
  }

  // ---------------------------------------------------------------- quoted lines

  /** The text between the first two quotes. */
  lemma QuotedText(head: string, text: string, previous: string)
    requires '"' !in head
    ensures PskOf(head + "\"" + text + "\"" + "\n", previous) == UpToQuote(text)
  {
    var line := head + "\"" + text + "\"" + "\n";
    assert line == head + ['"'] + (text + ['"'] + "\n");
    PastFirst(head, '"', text + ['"'] + "\n");
    assert (text + ['"'] + "\n")[|text|] == '"';
    TakeUntilBefore(text, '"', "\n", {'"'});
  }

  function QuotedBody(own: string, text: string): string {
    "\t" + own + "=" + "\"" + text + "\""
  }

  /** No word follows "proto=" or "key_mgmt=" where the line begins otherwise. */
  lemma NoWord(own: string, text: string)
    requires own == SSID || own == PSK
    ensures ScanWord(QuotedBody(own, text) + "\n", PROTO + "=", 19) == None
    ensures ScanWord(QuotedBody(own, text) + "\n", MGMT + "=", 255) == None
  {
    var line := QuotedBody(own, text) + "\n";
    assert line[0] == '\t' && line[1] == own[0] && line[2] == own[1];
    assert line[1..][0] == own[0] && line[1..][1] == own[1];
    assert (PROTO + "=")[1] == 'r' && (MGMT + "=")[0] == 'k';
    ScanWordFails(line, PROTO + "=", 19);
    ScanWordFails(line, MGMT + "=", 255);
  }

  /** Whether the SSID is found once this line has been compared. */
  predicate Hit(s: Search, own: string, text: string, ssid: string) {
    s.found || ((own == SSID || Has(text, SSID + "=")) && ReadAs(text) == Some(ssid))
  }

  /** One quoted line, of an SSID or of a passphrase: compared if it contains "ssid=", then read for every keyword it
      contains. */
  lemma QuotedStep(own: string, text: string, s: Search, ssid: string, hex: string, junk: string)
    requires own == SSID || own == PSK
    ensures LineStep(s, QuotedBody(own, text) + "\n", ssid, hex, junk) ==
            if !Hit(s, own, text, ssid) then More(s)
            else
              Misread(text, s.(pwd := if own == PSK || Has(text, PSK + "=") then UpToQuote(text) else s.pwd), junk)
  {
    var line := QuotedBody(own, text) + "\n";
    KeywordPlain(own);
    QuotedHas(own, text, SSID);
    QuotedHas(own, text, PSK);
    QuotedHas(own, text, PROTO);
    QuotedHas(own, text, MGMT);
    QuotedValue("\t" + own, text);
    QuotedMatches(text, ssid, hex);
    QuotedText("\t" + own + "=", text, s.pwd);
    NoWord(own, text);
  }

  // ---------------------------------------------------------------- the SSID line

  lemma HexValue(digits: string, ssid: string)
    requires AllHex(digits) && Bytes(ssid)
    ensures var line := SsidBody(HexForm(digits)) + "\n";
            '=' in line && (ValueMatches(Value(line), ssid, Hex(ssid)) <==> Decode(digits) == Some(ssid))
  {
    HexIsBare(digits);
    assert SsidBody(HexForm(digits)) + "\n" == "\tssid" + "=" + digits + "\n";
    ValueReads("\tssid", digits);
    if digits != "" {
      assert Nibble(digits[0]) >= 0;
    }
    HexMatchIff(digits, ssid);
  }

  /** The text comparison decides whether the block is taken for the SSID. */
  lemma SsidValue(form: SsidForm, ssid: string)
    requires SsidOk(form) && Bytes(ssid)
    ensures var line := SsidBody(form) + "\n";
            '=' in line && (ValueMatches(Value(line), ssid, Hex(ssid)) <==> TakenFor(form, ssid))
  {
    match form
    case Quoted(name) =>
      KeywordPlain(SSID);
      QuotedValue("\t" + SSID, name);
      QuotedMatches(name, ssid, Hex(ssid));
    case HexForm(digits) =>
      HexValue(digits, ssid);
  }

  lemma HexStep(digits: string, s: Search, ssid: string, junk: string)
    requires AllHex(digits) && Bytes(ssid) && !s.found
    ensures LineStep(s, SsidBody(HexForm(digits)) + "\n", ssid, Hex(ssid), junk) ==
            More(s.(found := Decode(digits) == Some(ssid)))
  {
    HexValue(digits, ssid);
    HexIsBare(digits);
    BareHas(SSID, digits, SSID);
    BareHas(SSID, digits, PSK);
    BareHas(SSID, digits, PROTO);
    BareHas(SSID, digits, MGMT);
  }

  lemma SsidStep(form: SsidForm, s: Search, ssid: string, junk: string)
    requires SsidOk(form) && Bytes(ssid) && !s.found
    ensures LineStep(s, SsidBody(form) + "\n", ssid, Hex(ssid), junk) ==
            if TakenFor(form, ssid) then SsidEffect(form, s.(found := true), junk) else More(s)
  {
    match form
    case Quoted(name) => QuotedStep(SSID, name, s, ssid, Hex(ssid), junk);
    case HexForm(digits) => HexStep(digits, s, ssid, junk);
  }

  // ---------------------------------------------------------------- the other lines of a block

  lemma RawPskReads(word: string, previous: string)
    requires Word(word) && '"' !in word && |word| <= 255
    ensures PskOf(PskBody(RawPsk(word)) + "\n", previous) == word
  {
    var line := "\t" + PSK + "=" + word + "\n";
    assert '"' !in line;
    WordLine(PSK, word, "", 255);
    assert word + "" == word;
  }

  lemma RawPskStep(word: string, s: Search, ssid: string, hex: string, junk: string)
    requires Word(word) && '"' !in word && |word| <= 255
    ensures LineStep(s, PskBody(RawPsk(word)) + "\n", ssid, hex, junk) ==
            More(if s.found then s.(pwd := word) else s)
  {
    BareHas(PSK, word, SSID);
    BareHas(PSK, word, PSK);
    BareHas(PSK, word, PROTO);
    BareHas(PSK, word, MGMT);
    RawPskReads(word, s.pwd);
  }

  /** A passphrase line: nothing before the SSID is found, unless the line itself is taken for it. */
  function PskAnswer(psk: Psk, s: Search, ssid: string, junk: string): Answer {
    if s.found || PskTakenFor(psk, ssid) then PskEffect(psk, s.(found := true), junk) else More(s)
  }

  lemma PskStep(psk: Psk, s: Search, ssid: string, hex: string, junk: string)
    requires psk != NoPsk && PskOk(psk) && Fits(PskBody(psk))
    ensures LineStep(s, PskBody(psk) + "\n", ssid, hex, junk) == PskAnswer(psk, s, ssid, junk)
  {
    match psk
    case Passphrase(text) => QuotedStep(PSK, text, s, ssid, hex, junk);
    case RawPsk(word) => RawPskStep(word, s, ssid, hex, junk);
  }

  lemma MgmtHas(mgmt: Mgmt, base: string)
    requires MgmtOk(mgmt) && Keyword(base)
    ensures Has(MgmtBody(mgmt) + "\n", base + "=") <==> base == if mgmt.Proto? then PROTO else MGMT
  {
    BareHas(if mgmt.Proto? then PROTO else MGMT, mgmt.word + mgmt.more, base);
  }

  lemma MgmtReads(mgmt: Mgmt)
    requires MgmtOk(mgmt) && Fits(MgmtBody(mgmt))
    ensures mgmt.Proto? ==> ScanWord(MgmtBody(mgmt) + "\n", PROTO + "=", 19) == Some(mgmt.word)
    ensures mgmt.KeyMgmt? ==> ScanWord(MgmtBody(mgmt) + "\n", MGMT + "=", 255) == Some(mgmt.word)
  {
    if mgmt.Proto? {
      WordLine(PROTO, mgmt.word, mgmt.more, 19);
    } else {
      WordLine(MGMT, mgmt.word, mgmt.more, 255);
    }
  }

  lemma MgmtStep(mgmt: Mgmt, s: Search, ssid: string, hex: string, junk: string)
    requires MgmtOk(mgmt) && Fits(MgmtBody(mgmt))
    ensures LineStep(s, MgmtBody(mgmt) + "\n", ssid, hex, junk) ==
            if s.found then Done(Search(true, s.pwd, MgmtName(mgmt))) else More(s)
  {
    MgmtHas(mgmt, SSID);
    MgmtHas(mgmt, PSK);
    MgmtHas(mgmt, PROTO);
    MgmtHas(mgmt, MGMT);
    MgmtReads(mgmt);
  }

  // ---------------------------------------------------------------- blocks

  lemma {:induction false} FillersSkip(fs: seq<Filler>, rest: seq<string>, s: Search,
                                       ssid: string, hex: string, junk: nat -> string)
    requires |hex| % 2 == 0 && forall f | f in fs :: FillerOk(f)
    ensures Scan(FillerBodies(fs) + rest, s, ssid, hex, junk) == Scan(rest, s, ssid, hex, junk)
  {
    if fs == [] {
      assert FillerBodies(fs) + rest == rest;
    } else {
      var tail := FillerBodies(fs[1..]) + rest;
      assert FillerBodies(fs) + rest == [FillerBody(fs[0])] + tail;
      FillerStep(fs[0], s, ssid, hex, junk(|Text([FillerBody(fs[0])] + tail)|));
      ScanFirst(FillerBody(fs[0]), tail, s, ssid, hex, junk);
      FillersSkip(fs[1..], rest, s, ssid, hex, junk);
    }
  }

  lemma PskScan(psk: Psk, rest: seq<string>, s: Search, ssid: string, hex: string, junk: nat -> string)
    requires PskOk(psk) && (psk != NoPsk ==> Fits(PskBody(psk)))
    ensures Scan(PskBodies(psk) + rest, s, ssid, hex, junk)
         == Next(PskAnswer(psk, s, ssid, junk(|Text(PskBodies(psk) + rest)|)), rest, ssid, hex, junk)
  {
    if psk == NoPsk {
      assert PskBodies(psk) + rest == rest;
    } else {
      PskStep(psk, s, ssid, hex, junk(|Text(PskBodies(psk) + rest)|));
      ScanFirst(PskBody(psk), rest, s, ssid, hex, junk);
    }
  }

  lemma LooseSkip(after: seq<string>, rest: seq<string>, s: Search, ssid: string, hex: string, junk: nat -> string)
    requires !s.found && forall body | body in after :: LooseOk(body)
    ensures Scan(after + rest, s, ssid, hex, junk) == Scan(rest, s, ssid, hex, junk)
  {
    forall i, unwritten | 0 <= i < |after|
      ensures LineStep(s, after[i] + "\n", ssid, hex, unwritten) == More(s)
    {
      assert after[i] in after;
      LooseStep(after[i], s, ssid, hex, unwritten);
    }
    ScanSkips(after, rest, s, ssid, hex, junk);
  }

  /** What follows the SSID line of a block, up to the next block. */
  function Body(b: Block): seq<string> {
    FillerBodies(b.between) + (PskBodies(b.psk) + (FillerBodies(b.more) + ([MgmtBody(b.mgmt)] + b.after)))
  }

  /** From the passphrase line on. */
  function Tail(b: Block, rest: seq<string>): seq<string> {
    FillerBodies(b.more) + ([MgmtBody(b.mgmt)] + (b.after + rest))
  }

  lemma TailScan(b: Block, rest: seq<string>, s: Search, ssid: string, hex: string, junk: nat -> string)
    requires BlockOk(b) && |hex| % 2 == 0
    ensures Scan(Tail(b, rest), s, ssid, hex, junk) ==
            if s.found then Search(true, s.pwd, MgmtName(b.mgmt)) else Scan(rest, s, ssid, hex, junk)
  {
    var tail := b.after + rest;
    FillersSkip(b.more, [MgmtBody(b.mgmt)] + tail, s, ssid, hex, junk);
    MgmtStep(b.mgmt, s, ssid, hex, junk(|Text([MgmtBody(b.mgmt)] + tail)|));
    ScanFirst(MgmtBody(b.mgmt), tail, s, ssid, hex, junk);
    if !s.found {
      LooseSkip(b.after, rest, s, ssid, hex, junk);
    }
  }

  /** The text left when the passphrase line, and when the SSID line of a block is read. */
  function PskPlace(b: Block, rest: seq<string>): nat {
    |Text(PskBodies(b.psk) + Tail(b, rest))|
  }

  function SsidPlace(b: Block, rest: seq<string>): nat {
    |Text([SsidBody(b.ssid)] + (Body(b) + rest))|
  }

  /** The rest of a block: skipped while the SSID is not found and the passphrase line is not taken for it, else read
      to its key management line. */
  lemma BodyScan(b: Block, rest: seq<string>, s: Search, ssid: string, hex: string, junk: nat -> string)
    requires BlockOk(b) && |hex| % 2 == 0
    ensures Scan(Body(b) + rest, s, ssid, hex, junk) ==
            if s.found || PskTakenFor(b.psk, ssid) then FromPsk(b, s.(found := true), junk(PskPlace(b, rest)))
            else Scan(rest, s, ssid, hex, junk)
  {
    var fromPsk := PskBodies(b.psk) + Tail(b, rest);
    BodySplits(b, rest);
    FillersSkip(b.between, fromPsk, s, ssid, hex, junk);
    PskScan(b.psk, Tail(b, rest), s, ssid, hex, junk);
    AnswerScan(b, rest, s, ssid, hex, junk);
  }

  lemma BodySplits(b: Block, rest: seq<string>)
    ensures Body(b) + rest == FillerBodies(b.between) + (PskBodies(b.psk) + Tail(b, rest))
  {
  }

  lemma AnswerScan(b: Block, rest: seq<string>, s: Search, ssid: string, hex: string, junk: nat -> string)
    requires BlockOk(b) && |hex| % 2 == 0
    ensures Next(PskAnswer(b.psk, s, ssid, junk(PskPlace(b, rest))), Tail(b, rest), ssid, hex, junk) ==
            if s.found || PskTakenFor(b.psk, ssid) then FromPsk(b, s.(found := true), junk(PskPlace(b, rest)))
            else Scan(rest, s, ssid, hex, junk)
  {
    TailScan(b, rest, PskAnswer(b.psk, s, ssid, junk(PskPlace(b, rest))).search, ssid, hex, junk);
  }

  lemma BlockSplits(b: Block, rest: seq<string>)
    ensures BlockBodies(b) + rest == FillerBodies(b.before) + ([SsidBody(b.ssid)] + (Body(b) + rest))
  {
  }

  /** What an SSID line does before the SSID is found. */
  function SsidAnswer(form: SsidForm, s: Search, ssid: string, unwritten: string): Answer {
    if TakenFor(form, ssid) then SsidEffect(form, s.(found := true), unwritten) else More(s)
  }

  /** A block up to its SSID line. */
  lemma SsidScan(b: Block, rest: seq<string>, s: Search, ssid: string, junk: nat -> string)
    requires BlockOk(b) && Bytes(ssid) && !s.found && |Hex(ssid)| % 2 == 0
    ensures Scan(BlockBodies(b) + rest, s, ssid, Hex(ssid), junk) ==
            Next(SsidAnswer(b.ssid, s, ssid, junk(SsidPlace(b, rest))), Body(b) + rest, ssid, Hex(ssid), junk)
  {
    var fromBody := Body(b) + rest;
    BlockSplits(b, rest);
    FillersSkip(b.before, [SsidBody(b.ssid)] + fromBody, s, ssid, Hex(ssid), junk);
    ScanFirst(SsidBody(b.ssid), fromBody, s, ssid, Hex(ssid), junk);
    SsidStep(b.ssid, s, ssid, junk(SsidPlace(b, rest)));
  }

  lemma EffectFound(form: SsidForm, s: Search, unwritten: string)
    requires s.found
    ensures SsidEffect(form, s, unwritten).search.found
  {
  }

  /** What the rest of a block makes of the answer at its SSID line. */
  lemma AnswerToBlock(b: Block, pwd0: string, key0: string, ssid: string, junk1: string, junk2: string)
    ensures var s := Search(false, pwd0, key0);
            var answer := SsidAnswer(b.ssid, s, ssid, junk1);
            && (TakenFor(b.ssid, ssid) && answer.Done? ==> Actual(b, true, pwd0, key0, junk1, junk2) == answer.search)
            && (TakenFor(b.ssid, ssid) && answer.More? ==>
                  answer.search.found && Actual(b, true, pwd0, key0, junk1, junk2) == FromPsk(b, answer.search, junk2))
            && (!TakenFor(b.ssid, ssid) ==>
                  && answer == More(s)
                  && Actual(b, false, pwd0, key0, junk1, junk2) == FromPsk(b, s.(found := true), junk2))
  {
    EffectFound(b.ssid, Search(true, pwd0, key0), junk1);
  }

  /** A block not taken for the SSID is passed over; the block taken decides. */
  lemma BlockScan(b: Block, rest: seq<string>, pwd0: string, key0: string, ssid: string, junk: nat -> string)
    requires BlockOk(b) && Bytes(ssid)
    ensures var s := Search(false, pwd0, key0);
            Scan(BlockBodies(b) + rest, s, ssid, Hex(ssid), junk) ==
            if TakenFor(b.ssid, ssid) || PskTakenFor(b.psk, ssid)
            then Actual(b, TakenFor(b.ssid, ssid), pwd0, key0, junk(SsidPlace(b, rest)), junk(PskPlace(b, rest)))
            else Scan(rest, s, ssid, Hex(ssid), junk)
  {
    HexShape(ssid);
    SsidScan(b, rest, Search(false, pwd0, key0), ssid, junk);
    AfterSsid(b, rest, pwd0, key0, ssid, junk, junk(SsidPlace(b, rest)));
  }

  lemma AfterSsid(b: Block, rest: seq<string>, pwd0: string, key0: string, ssid: string,
                  junk: nat -> string, junk1: string)
    requires BlockOk(b) && Bytes(ssid) && |Hex(ssid)| % 2 == 0
    ensures var s := Search(false, pwd0, key0);
            Next(SsidAnswer(b.ssid, s, ssid, junk1), Body(b) + rest, ssid, Hex(ssid), junk) ==
            if TakenFor(b.ssid, ssid) || PskTakenFor(b.psk, ssid)
            then Actual(b, TakenFor(b.ssid, ssid), pwd0, key0, junk1, junk(PskPlace(b, rest)))
            else Scan(rest, s, ssid, Hex(ssid), junk)
  {
    var answer := SsidAnswer(b.ssid, Search(false, pwd0, key0), ssid, junk1);
    AnswerToBlock(b, pwd0, key0, ssid, junk1, junk(PskPlace(b, rest)));
    BodyScan(b, rest, answer.search, ssid, Hex(ssid), junk);
  }

  /** What the protocol buffer holds at the SSID and the passphrase line of the block taken. */
  function JunkAt(blocks: seq<Block>, ssid: string, junk: nat -> string): (string, string) {
    if blocks == [] then ("", "")
    else if TakenFor(blocks[0].ssid, ssid) || PskTakenFor(blocks[0].psk, ssid) then
      (junk(SsidPlace(blocks[0], BlocksBodies(blocks[1..]))), junk(PskPlace(blocks[0], BlocksBodies(blocks[1..]))))
    else JunkAt(blocks[1..], ssid, junk)
  }

  lemma {:induction false} BlocksScan(blocks: seq<Block>, pwd0: string, key0: string, ssid: string, junk: nat -> string)
    requires Bytes(ssid) && forall b | b in blocks :: BlockOk(b)
    ensures Scan(BlocksBodies(blocks), Search(false, pwd0, key0), ssid, Hex(ssid), junk) ==
            match FirstTaken(blocks, ssid)
            case None => Search(false, pwd0, key0)
            case Some(b) =>
              Actual(b, TakenFor(b.ssid, ssid), pwd0, key0, JunkAt(blocks, ssid, junk).0, JunkAt(blocks, ssid, junk).1)
  {
    if blocks != [] {
      BlockScan(blocks[0], BlocksBodies(blocks[1..]), pwd0, key0, ssid, junk);
      BlocksScan(blocks[1..], pwd0, key0, ssid, junk);
    }
  }

  /** A protocol buffer that holds the same thing at every line. */
  function Constant(unwritten: string): nat -> string {
    (_: nat) => unwritten
  }

  lemma {:induction false} JunkConstant(blocks: seq<Block>, ssid: string, unwritten: string)
    requires FirstTaken(blocks, ssid).Some?
    ensures JunkAt(blocks, ssid, Constant(unwritten)) == (unwritten, unwritten)
  {
    if !(TakenFor(blocks[0].ssid, ssid) || PskTakenFor(blocks[0].psk, ssid)) {
      JunkConstant(blocks[1..], ssid, unwritten);
    }
  }

  // ---------------------------------------------------------------- files

  ghost predicate AllFit(bodies: seq<string>) {
    forall i | 0 <= i < |bodies| :: Fits(bodies[i])
  }

  lemma AllFitAppend(a: seq<string>, b: seq<string>)
    requires AllFit(a) && AllFit(b)
    ensures AllFit(a + b)
  {
  }

  lemma {:induction false} FillersFit(fs: seq<Filler>)
    requires forall f | f in fs :: FillerOk(f)
    ensures AllFit(FillerBodies(fs))
  {
    if fs != [] {
      assert fs[0] in fs;
      FillersFit(fs[1..]);
      AllFitAppend([FillerBody(fs[0])], FillerBodies(fs[1..]));
    }
  }

  lemma LooseFit(bodies: seq<string>)
    requires forall body | body in bodies :: LooseOk(body)
    ensures AllFit(bodies)
  {
    forall i | 0 <= i < |bodies| ensures Fits(bodies[i]) {
      assert bodies[i] in bodies;
    }
  }

  lemma BlockFits(b: Block)
    requires BlockOk(b)
    ensures AllFit(BlockBodies(b))
  {
    FillersFit(b.before);
    FillersFit(b.between);
    FillersFit(b.more);
    LooseFit(b.after);
    AllFitAppend([MgmtBody(b.mgmt)], b.after);
    var fromMgmt := [MgmtBody(b.mgmt)] + b.after;
    AllFitAppend(FillerBodies(b.more), fromMgmt);
    AllFitAppend(PskBodies(b.psk), FillerBodies(b.more) + fromMgmt);
    AllFitAppend(FillerBodies(b.between), PskBodies(b.psk) + (FillerBodies(b.more) + fromMgmt));
    AllFitAppend([SsidBody(b.ssid)], Body(b));
    AllFitAppend(FillerBodies(b.before), [SsidBody(b.ssid)] + Body(b));
  }

  lemma {:induction false} BlocksFit(blocks: seq<Block>)
    requires forall b | b in blocks :: BlockOk(b)
    ensures AllFit(BlocksBodies(blocks))
  {
    if blocks != [] {
      BlockFits(blocks[0]);
      BlocksFit(blocks[1..]);
      AllFitAppend(BlockBodies(blocks[0]), BlocksBodies(blocks[1..]));
    }
  }

  /** The lookup on the text of any well-formed file, for any SSID the hexadecimal buffer has room for, whatever its
      SSIDs and passphrases hold and whatever the protocol buffer holds at every line. */
  lemma LookupExact(file: File, ssid: string, pwd0: string, key0: string, junk: nat -> string)
    requires FileOk(file) && Bytes(ssid) && |ssid| <= Room(512)
    ensures Lookup(FileText(file), Search(false, pwd0, key0), ssid, HexSsid(ssid), junk) ==
            match FirstTaken(file.blocks, ssid)
            case None => Search(false, pwd0, key0)
            case Some(b) =>
              Actual(b, TakenFor(b.ssid, ssid), pwd0, key0,
                     JunkAt(file.blocks, ssid, junk).0, JunkAt(file.blocks, ssid, junk).1)
  {
    assert ssid[..Min(|ssid|, Room(512))] == ssid;
    BlocksFit(file.blocks);
    LooseFit(file.header);
    var s := Search(false, pwd0, key0);
    TextScan(file.header + BlocksBodies(file.blocks), s, ssid, Hex(ssid), junk);
    LooseSkip(file.header, BlocksBodies(file.blocks), s, ssid, Hex(ssid), junk);
    BlocksScan(file.blocks, pwd0, key0, ssid, junk);
  }

  // ---------------------------------------------------------------- when the lookup is right

  lemma GivesAlways(b: Block, bySsid: bool, pwd: Option<string>, key: string,
                    pwd0: string, key0: string, junk1: string, junk2: string)
    requires Gives(b, bySsid, pwd, key)
    ensures Actual(b, bySsid, pwd0, key0, junk1, junk2) == Search(true, Or(pwd, pwd0), key)
  {
  }

  /** Right with the protocol buffer holding the same thing at both lines. */
  ghost predicate GivesWith(b: Block, bySsid: bool, pwd: Option<string>, key: string, unwritten: string) {
    forall pwd0, key0 :: Actual(b, bySsid, pwd0, key0, unwritten, unwritten) == Search(true, Or(pwd, pwd0), key)
  }

  /** Two contents of the buffers betray every wrong block. */
  lemma GivesOnly(b: Block, bySsid: bool, pwd: Option<string>, key: string)
    requires GivesWith(b, bySsid, pwd, key, "") && GivesWith(b, bySsid, pwd, key, "RSN")
    ensures Gives(b, bySsid, pwd, key)
  {
    var read := PskRead(b, bySsid);
    var early := SsidPskRead(b, bySsid);
    var pwd0 := Or(read, "") + Or(early, "") + Or(pwd, "") + "x";
    var key0 := key + "x";
    assert |key0| > |key|;
    assert |pwd0| > |Or(read, "")| && |pwd0| > |Or(early, "")| && |pwd0| > |Or(pwd, "")|;
    assert Actual(b, bySsid, pwd0, key0, "", "") == Search(true, Or(pwd, pwd0), key);
    assert Actual(b, bySsid, pwd0, key0, "RSN", "RSN") == Search(true, Or(pwd, pwd0), key);
  }

  /** Right for all contents of the caller's two buffers and of the protocol buffer at every line. */
  ghost predicate LookupRight(file: File, ssid: string)
    requires Bytes(ssid)
  {
    forall pwd0, key0, junk: nat -> string ::
      Lookup(FileText(file), Search(false, pwd0, key0), ssid, HexSsid(ssid), junk)
        == Wanted(file.blocks, ssid, pwd0, key0)
  }

  lemma RightActual(file: File, ssid: string, pwd0: string, key0: string, unwritten: string)
    requires FileOk(file) && Bytes(ssid) && |ssid| <= Room(512) && LookupRight(file, ssid)
    requires FirstTaken(file.blocks, ssid).Some?
    ensures var a := FirstTaken(file.blocks, ssid).value;
            Actual(a, TakenFor(a.ssid, ssid), pwd0, key0, unwritten, unwritten) == Wanted(file.blocks, ssid, pwd0, key0)
  {
    LookupExact(file, ssid, pwd0, key0, Constant(unwritten));
    JunkConstant(file.blocks, ssid, unwritten);
    assert Lookup(FileText(file), Search(false, pwd0, key0), ssid, HexSsid(ssid), Constant(unwritten))
        == Wanted(file.blocks, ssid, pwd0, key0);
  }

  lemma RightGives(file: File, ssid: string, unwritten: string)
    requires FileOk(file) && Bytes(ssid) && |ssid| <= Room(512) && LookupRight(file, ssid)
    requires FirstMatch(file.blocks, ssid).Some? && FirstTaken(file.blocks, ssid).Some?
    ensures var b, a := FirstMatch(file.blocks, ssid).value, FirstTaken(file.blocks, ssid).value;
            GivesWith(a, TakenFor(a.ssid, ssid), PskWanted(b.psk), MgmtName(b.mgmt), unwritten)
  {
    var b, a := FirstMatch(file.blocks, ssid).value, FirstTaken(file.blocks, ssid).value;
    forall pwd0, key0
      ensures Actual(a, TakenFor(a.ssid, ssid), pwd0, key0, unwritten, unwritten)
           == Search(true, Or(PskWanted(b.psk), pwd0), MgmtName(b.mgmt))
    {
      RightActual(file, ssid, pwd0, key0, unwritten);
    }
  }

  /** Whatever the caller's buffers and the stack hold, the lookup returns what the first block for the SSID says, or
      not found if there is none: exactly when the file is right for that SSID. */
  lemma LookupRightIff(file: File, ssid: string)
    requires FileOk(file) && Bytes(ssid) && |ssid| <= Room(512)
    ensures LookupRight(file, ssid) <==> RightFor(file, ssid)
  {
    var matched, taken := FirstMatch(file.blocks, ssid), FirstTaken(file.blocks, ssid);
    if RightFor(file, ssid) {
      forall pwd0, key0, junk: nat -> string
        ensures Lookup(FileText(file), Search(false, pwd0, key0), ssid, HexSsid(ssid), junk)
             == Wanted(file.blocks, ssid, pwd0, key0)
      {
        LookupExact(file, ssid, pwd0, key0, junk);
        if taken.Some? {
          GivesAlways(taken.value, TakenFor(taken.value.ssid, ssid), PskWanted(matched.value.psk),
                      MgmtName(matched.value.mgmt), pwd0, key0,
                      JunkAt(file.blocks, ssid, junk).0, JunkAt(file.blocks, ssid, junk).1);
        }
      }
    }
    if LookupRight(file, ssid) {
      var junk := Constant("");
      LookupExact(file, ssid, "", "", junk);
      assert Lookup(FileText(file), Search(false, "", ""), ssid, HexSsid(ssid), junk)
          == Wanted(file.blocks, ssid, "", "");
      if taken.Some? && matched.Some? {
        RightGives(file, ssid, "");
        RightGives(file, ssid, "RSN");
        GivesOnly(taken.value, TakenFor(taken.value.ssid, ssid), PskWanted(matched.value.psk),
                  MgmtName(matched.value.mgmt));
      }
    }
  }

  lemma {:induction false} OrdinaryTaken(blocks: seq<Block>, ssid: string)
    requires forall b | b in blocks :: BlockOk(b) && Ordinary(b)
    ensures FirstTaken(blocks, ssid) == FirstMatch(blocks, ssid)
    ensures FirstMatch(blocks, ssid).Some? ==>
              var b := FirstMatch(blocks, ssid).value; b in blocks && Matches(b.ssid, ssid) && TakenFor(b.ssid, ssid)
  {
    if blocks != [] {
      var b := blocks[0];
      assert b in blocks;
      assert SSID in [SSID, PROTO, MGMT];
      if b.ssid.Quoted? {
        ReadAsIff(b.ssid.name);
      }
      OrdinaryTaken(blocks[1..], ssid);
    }
  }

  lemma OrdinaryGives(b: Block)
    requires Ordinary(b)
    ensures Gives(b, true, PskWanted(b.psk), MgmtName(b.mgmt))
  {
    assert forall base | base in [PSK, PROTO, MGMT] :: !Mentions(b.ssid, base);
    assert PSK in [PSK, PROTO, MGMT] && PROTO in [PSK, PROTO, MGMT] && MGMT in [PSK, PROTO, MGMT];
    assert PROTO in [SSID, PROTO, MGMT] && MGMT in [SSID, PROTO, MGMT];
    if b.psk.Passphrase? {
      UpToQuoteIff(b.psk.text);
    }
  }

  /** In particular on files whose quoted texts hold nothing the code could mistake. */
  lemma OrdinaryFilesRight(file: File, ssid: string)
    requires FileOk(file) && forall b | b in file.blocks :: Ordinary(b)
    requires Bytes(ssid) && |ssid| <= Room(512)
    ensures LookupRight(file, ssid)
  {
    OrdinaryTaken(file.blocks, ssid);
    if FirstMatch(file.blocks, ssid).Some? {
      OrdinaryGives(FirstMatch(file.blocks, ssid).value);
    }
    LookupRightIff(file, ssid);
  }

  // ---------------------------------------------------------------- files that go wrong

  /** One network, with this name and this passphrase. */
  function OneNetwork(name: string, passphrase: string): File {
    File([], [Network(name, passphrase)])
  }

  function Network(name: string, passphrase: string): Block {
    Block([], Quoted(name), [], Passphrase(passphrase), [], KeyMgmt("PSK", ""), [])
  }

  predicate Short(text: string) {
    '\n' !in text && |text| <= 63
  }

  lemma AssignmentFits(own: string, value: string)
    requires Keyword(own) && '\n' !in value && |value| <= 240
    ensures Fits("\t" + own + "=" + value)
  {
    KeywordPlain(own);
  }

  lemma PskWordOk()
    ensures MgmtOk(KeyMgmt("PSK", "")) && Fits(MgmtBody(KeyMgmt("PSK", "")))
  {
    var word := "PSK";
    forall c | c in word
      ensures c !in SPACES && c != '='
    {
      var i :| 0 <= i < |word| && word[i] == c;
    }
    AssignmentFits(MGMT, word + "");
  }

  lemma NetworkOk(name: string, passphrase: string)
    requires Short(name) && Short(passphrase)
    ensures BlockOk(Network(name, passphrase))
  {
    PskWordOk();
    var quotedName, quoted := "\"" + name + "\"", "\"" + passphrase + "\"";
    AssignmentFits(SSID, quotedName);
    AssignmentFits(PSK, quoted);
    assert SsidBody(Quoted(name)) == "\t" + SSID + "=" + quotedName;
    assert PskBody(Passphrase(passphrase)) == "\t" + PSK + "=" + quoted;
  }

  /** Every network whose name contains "key_mgmt=" is looked up wrongly. */
  lemma TrickySsid(name: string, passphrase: string)
    requires Short(name) && Short(passphrase) && Bytes(name) && Has(name, MGMT + "=")
    ensures FileOk(OneNetwork(name, passphrase)) && !LookupRight(OneNetwork(name, passphrase), name)
  {
    NetworkOk(name, passphrase);
    OneNetworkOk(name, passphrase);
    ReadAsIff(name);
    ReadIsFree(passphrase);
    assert Mentions(Quoted(name), MGMT);
    LookupRightIff(OneNetwork(name, passphrase), name);
  }

  /** So is every network whose passphrase contains "key_mgmt=" or a quote. */
  lemma TrickyPassphrase(name: string, passphrase: string)
    requires Short(name) && Short(passphrase) && Bytes(name)
    requires Has(passphrase, MGMT + "=") || '"' in passphrase
    ensures FileOk(OneNetwork(name, passphrase)) && !LookupRight(OneNetwork(name, passphrase), name)
  {
    NetworkOk(name, passphrase);
    OneNetworkOk(name, passphrase);
    UpToQuoteIff(passphrase);
    assert PskMentions(Passphrase(passphrase), MGMT) <==> Has(passphrase, MGMT + "=");
    LookupRightIff(OneNetwork(name, passphrase), name);
  }

  lemma OneNetworkOk(name: string, passphrase: string)
    requires BlockOk(Network(name, passphrase))
    ensures FileOk(OneNetwork(name, passphrase))
    ensures FirstMatch(OneNetwork(name, passphrase).blocks, name) == Some(Network(name, passphrase))
    ensures var taken := FirstTaken(OneNetwork(name, passphrase).blocks, name);
            taken == None || taken == Some(Network(name, passphrase))
  {
  }

  /** What comes back for such a name without the other keywords: both results as the buffers held them. */
  lemma TrickySsidResult(name: string, passphrase: string, pwd0: string, key0: string)
    requires Short(name) && Short(passphrase) && Bytes(name) && Free(name, STOPS)
    requires Has(name, MGMT + "=") && !Has(name, PSK + "=")
    ensures Lookup(FileText(OneNetwork(name, passphrase)), Search(false, pwd0, key0), name, HexSsid(name), Constant(""))
         == Search(true, pwd0, key0)
  {
    NetworkOk(name, passphrase);
    ReadAsIff(name);
    LookupExact(OneNetwork(name, passphrase), name, pwd0, key0, Constant(""));
    JunkConstant(OneNetwork(name, passphrase).blocks, name, "");
  }

  /** And for such a passphrase under a plain name: the passphrase up to its first quote, the key management as the
      buffer held it. */
  lemma TrickyPassphraseResult(name: string, passphrase: string, pwd0: string, key0: string)
    requires Short(name) && Short(passphrase) && Bytes(name) && Free(name, STOPS)
    requires !Has(name, MGMT + "=") && !Has(name, PROTO + "=") && Has(passphrase, MGMT + "=")
    ensures Lookup(FileText(OneNetwork(name, passphrase)), Search(false, pwd0, key0), name, HexSsid(name), Constant(""))
         == Search(true, UpToQuote(passphrase), key0)
  {
    NetworkOk(name, passphrase);
    ReadAsIff(name);
    LookupExact(OneNetwork(name, passphrase), name, pwd0, key0, Constant(""));
    JunkConstant(OneNetwork(name, passphrase).blocks, name, "");
  }

  lemma NeighbourTaken(first: string, name: string, passphrase: string)
    requires '\n' !in name && Free(name, STOPS) && ReadAs(first) != Some(name) && Has(name, SSID + "=") && first != name
    ensures var blocks := [Network(first, name), Network(name, passphrase)];
            && FirstTaken(blocks, name) == Some(Network(first, name)) && !TakenFor(Quoted(first), name)
            && FirstMatch(blocks, name) == Some(Network(name, passphrase))
  {
    ReadAsIff(name);
    var blocks := [Network(first, name), Network(name, passphrase)];
    assert PskTakenFor(blocks[0].psk, name);
    assert blocks[1..] == [Network(name, passphrase)];
    assert FirstMatch(blocks[1..], name) == Some(Network(name, passphrase));
  }

  lemma NeighbourActual(first: string, name: string, pwd0: string, key0: string)
    requires '"' !in name && !Has(name, PROTO + "=") && !Has(name, MGMT + "=")
    ensures Actual(Network(first, name), false, pwd0, key0, "", "") == Search(true, name, "PSK")
  {
    UpToQuoteIff(name);
  }

  /** An earlier network whose passphrase is "ssid=x" is returned instead of the network called "ssid=x". */
  lemma TrickyNeighbour(first: string, name: string, passphrase: string, pwd0: string, key0: string)
    requires Short(first) && Short(name) && Short(passphrase) && Bytes(name) && Free(name, STOPS) && '"' !in name
    requires ReadAs(first) != Some(name) && Has(name, SSID + "=") && !Has(name, PROTO + "=") && !Has(name, MGMT + "=")
    requires first != name
    ensures var file := File([], [Network(first, name), Network(name, passphrase)]);
            && FileOk(file)
            && Lookup(FileText(file), Search(false, pwd0, key0), name, HexSsid(name), Constant(""))
                 == Search(true, name, "PSK")
            && Wanted(file.blocks, name, pwd0, key0) == Search(true, passphrase, "PSK")
  {
    NetworkOk(first, name);
    NetworkOk(name, passphrase);
    NeighbourTaken(first, name, passphrase);
    NeighbourActual(first, name, pwd0, key0);
    LookupExact(File([], [Network(first, name), Network(name, passphrase)]), name, pwd0, key0, Constant(""));
    JunkConstant([Network(first, name), Network(name, passphrase)], name, "");
  }

  /** Names and passphrases as the last three lemmas want them exist. */
  lemma TrickyTexts()
    ensures var k, s := MGMT + "=", SSID + "=";
            && Short(k) && Bytes(k) && Free(k, STOPS)
            && Has(k, MGMT + "=") && !Has(k, PSK + "=") && !Has(k, PROTO + "=")
            && Short(s) && Bytes(s) && Free(s, STOPS) && '"' !in s && Has(s, SSID + "=")
            && !Has(s, PROTO + "=") && !Has(s, MGMT + "=")
  {
    KeywordText(MGMT);
    KeywordText(SSID);
    KeywordNotIn(MGMT, PSK);
    KeywordNotIn(MGMT, PROTO);
    KeywordNotIn(SSID, PROTO);
    KeywordNotIn(SSID, MGMT);
  }

  lemma KeywordText(base: string)
    requires Keyword(base)
    ensures var k := base + "="; Short(k) && Bytes(k) && Free(k, STOPS) && '"' !in k && Has(k, k)
  {
    KeywordPlain(base);
    var k := base + "=";
    assert k <= k;
    forall c | c in k
      ensures c !in STOPS
    {
      var i :| 0 <= i < |k| && k[i] == c;
    }
  }

  lemma KeywordNotIn(own: string, base: string)
    requires Keyword(own) && Keyword(base) && own != base
    ensures !Has(own + "=", base + "=")
  {
    KeywordPlain(own);
    KeywordPlain(base);
    KeywordsApart(own, base);
    HasAssignment("\t" + own, "", base);
    var k := own + "=";
    assert "\t" + own + "=" + "" == "\t" + k + "";
    if Has(k, base + "=") {
      HasInside("\t", k, "", base + "=");
    }
  }
}
