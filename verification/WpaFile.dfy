/**
 Files as wpa_supplicant writes them, as data, and what looking up an SSID in the text of
 such a file returns.
 */
module WpaFile {
  import opened Common
  import opened CText
  import opened HexText
  import opened WpaConf

  // ---------------------------------------------------------------- files as data

  datatype SsidForm = Quoted(name: string) | HexForm(digits: string)

  datatype Psk = NoPsk | Passphrase(text: string) | RawPsk(word: string)

  /** The first key management line of a block; `more` is what follows the word the lookup reads. */
  datatype Mgmt = Proto(word: string, more: string) | KeyMgmt(word: string, more: string)

  /** Lines the lookup passes over even inside the block it wants. */
  datatype Filler =
    | Plain(body: string)
    | ScanSsid(on: bool)
    | Bssid(mac: string)
    | OtherProto(word: string, more: string)

  datatype Block = Block(
    before: seq<Filler>,
    ssid: SsidForm,
    between: seq<Filler>,
    psk: Psk,
    more: seq<Filler>,
    mgmt: Mgmt,
    after: seq<string>)

  datatype File = File(header: seq<string>, blocks: seq<Block>)

  // ---------------------------------------------------------------- well-formed files

  /** A line body that fits the line buffer. */
  predicate Fits(body: string) {
    '\n' !in body && |body| <= 254
  }

  predicate Word(word: string) {
    word != "" && '=' !in word && Free(word, SPACES)
  }

  predicate Rest(more: string) {
    '=' !in more && (more == "" || more[0] in SPACES)
  }

  predicate SsidOk(form: SsidForm) {
    match form
    case Quoted(name) => '\n' !in name
    case HexForm(digits) => AllHex(digits)
  }

  predicate PskOk(psk: Psk) {
    match psk
    case NoPsk => true
    case Passphrase(text) => '\n' !in text
    case RawPsk(word) => Word(word) && '"' !in word
  }

  predicate MgmtOk(mgmt: Mgmt) {
    match mgmt
    case Proto(word, more) => SameIgnoringCase(word, "RSN") && Word(word) && Rest(more)
    case KeyMgmt(word, more) => Word(word) && Rest(more)
  }

  predicate FillerOk(f: Filler) {
    && Fits(FillerBody(f))
    && match f
       case Plain(body) =>
         && !Has(body, SSID + "=") && !Has(body, PSK + "=")
         && !Has(body, PROTO + "=") && !Has(body, MGMT + "=")
       case ScanSsid(_) => true
       case Bssid(mac) => ':' in mac && '=' !in mac && '"' !in mac && Free(mac, STOPS)
       case OtherProto(word, more) => Word(word) && |word| <= 19 && Rest(more) && !SameIgnoringCase(word, "RSN")
  }

  predicate LooseOk(body: string) {
    Fits(body) && !Has(body, SSID + "=")
  }

  ghost predicate BlockOk(b: Block) {
    && (forall f | f in b.before :: FillerOk(f))
    && SsidOk(b.ssid) && Fits(SsidBody(b.ssid))
    && (forall f | f in b.between :: FillerOk(f))
    && PskOk(b.psk) && (b.psk != NoPsk ==> Fits(PskBody(b.psk)))
    && (forall f | f in b.more :: FillerOk(f))
    && MgmtOk(b.mgmt) && Fits(MgmtBody(b.mgmt))
    && (forall body | body in b.after :: LooseOk(body))
  }

  ghost predicate FileOk(file: File) {
    && (forall body | body in file.header :: LooseOk(body))
    && (forall b | b in file.blocks :: BlockOk(b))
  }

  // ---------------------------------------------------------------- their text

  function SsidBody(form: SsidForm): string {
    match form
    case Quoted(name) => "\t" + SSID + "=" + "\"" + name + "\""
    case HexForm(digits) => "\t" + SSID + "=" + digits
  }

  function PskBody(psk: Psk): string
    requires psk != NoPsk
  {
    match psk
    case Passphrase(text) => "\t" + PSK + "=" + "\"" + text + "\""
    case RawPsk(word) => "\t" + PSK + "=" + word
  }

  function MgmtBody(mgmt: Mgmt): string {
    match mgmt
    case Proto(word, more) => "\t" + PROTO + "=" + (word + more)
    case KeyMgmt(word, more) => "\t" + MGMT + "=" + (word + more)
  }

  function FillerBody(f: Filler): string {
    match f
    case Plain(body) => body
    case ScanSsid(on) => "\tscan_ssid" + "=" + if on then "1" else "0"
    case Bssid(mac) => "\tbssid" + "=" + mac
    case OtherProto(word, more) => "\t" + PROTO + "=" + (word + more)
  }

  function FillerBodies(fs: seq<Filler>): seq<string> {
    if fs == [] then [] else [FillerBody(fs[0])] + FillerBodies(fs[1..])
  }

  function PskBodies(psk: Psk): seq<string> {
    if psk == NoPsk then [] else [PskBody(psk)]
  }

  function BlockBodies(b: Block): seq<string> {
    FillerBodies(b.before) + ([SsidBody(b.ssid)] + (FillerBodies(b.between) + (PskBodies(b.psk)
    + (FillerBodies(b.more) + ([MgmtBody(b.mgmt)] + b.after)))))
  }

  function BlocksBodies(blocks: seq<Block>): seq<string> {
    if blocks == [] then [] else BlockBodies(blocks[0]) + BlocksBodies(blocks[1..])
  }

  function Text(bodies: seq<string>): string {
    if bodies == [] then "" else bodies[0] + "\n" + Text(bodies[1..])
  }

  function FileText(file: File): string {
    Text(file.header + BlocksBodies(file.blocks))
  }

  // ---------------------------------------------------------------- what a lookup should return

  /** Whether a block is for this SSID: quoted as it is, or in hexadecimal digits of either case. */
  predicate Matches(form: SsidForm, ssid: string) {
    match form
    case Quoted(name) => name == ssid
    case HexForm(digits) => Decode(digits) == Some(ssid)
  }

  function FirstMatch(blocks: seq<Block>, ssid: string): Option<Block> {
    if blocks == [] then None
    else if Matches(blocks[0].ssid, ssid) then Some(blocks[0])
    else FirstMatch(blocks[1..], ssid)
  }

  function MgmtName(mgmt: Mgmt): string {
    match mgmt
    case Proto(_, _) => "WPA2-PSK"
    case KeyMgmt(word, _) => word
  }

  function PskWanted(psk: Psk): Option<string> {
    match psk
    case NoPsk => None
    case Passphrase(text) => Some(text)
    case RawPsk(word) => Some(word)
  }

  function Or(value: Option<string>, otherwise: string): string {
    match value case None => otherwise case Some(text) => text
  }

  /** The passphrase and the key management of the first block for the SSID, or nothing found. */
  function Wanted(blocks: seq<Block>, ssid: string, pwd0: string, key0: string): Search {
    match FirstMatch(blocks, ssid)
    case None => Search(false, pwd0, key0)
    case Some(b) => Search(true, Or(PskWanted(b.psk), pwd0), MgmtName(b.mgmt))
  }

  // ---------------------------------------------------------------- what the code makes of a quoted text

  const STOPS: set<char> := {'\n', ' ', '\t', '#'}

  /** The SSID the code reads: it cuts at the first blank or '#', and takes off a last quote if one is left. */
  function ReadAs(text: string): Option<string> {
    var cut := TakeUntil(text + "\"", STOPS);
    if cut == "" then Some("") else if cut[|cut| - 1] == '"' then Some(cut[..|cut| - 1]) else None
  }

  /** The passphrase the code reads: it ends at the first quote. */
  function UpToQuote(text: string): string {
    TakeUntil(text, {'"'})
  }

  /** A quoted SSID is found as itself exactly when it holds no blank and no '#'. */
  lemma ReadAsIff(name: string)
    requires '\n' !in name
    ensures ReadAs(name) == Some(name) <==> Free(name, STOPS)
  {
    var quoted := name + "\"";
    TakenIsFree(quoted, STOPS);
    if Free(name, STOPS) {
      TakeUntilAll(quoted, STOPS);
    }
  }

  lemma ReadIsFree(text: string)
    ensures ReadAs(text).Some? ==> Free(ReadAs(text).value, STOPS)
  {
    TakenIsFree(text + "\"", STOPS);
  }

  /** A passphrase is read whole exactly when it holds no quote. */
  lemma UpToQuoteIff(text: string)
    ensures UpToQuote(text) == text <==> '"' !in text
  {
    TakenIsFree(text, {'"'});
    if '"' !in text {
      TakeUntilAll(text, {'"'});
    }
  }

  // ---------------------------------------------------------------- what a lookup does return

  predicate TakenFor(form: SsidForm, ssid: string) {
    match form
    case Quoted(name) => ReadAs(name) == Some(ssid)
    case HexForm(digits) => Decode(digits) == Some(ssid)
  }

  /** A passphrase line that contains "ssid=" is compared as an SSID line too. */
  predicate PskTakenFor(psk: Psk, ssid: string) {
    psk.Passphrase? && Has(psk.text, SSID + "=") && ReadAs(psk.text) == Some(ssid)
  }

  function FirstTaken(blocks: seq<Block>, ssid: string): Option<Block> {
    if blocks == [] then None
    else if TakenFor(blocks[0].ssid, ssid) || PskTakenFor(blocks[0].psk, ssid) then Some(blocks[0])
    else FirstTaken(blocks[1..], ssid)
  }

  /** A quoted text whose line is read once the SSID is found: keywords in it count as lines of their own. */
  function Misread(text: string, s: Search, junk: string): Answer {
    if Has(text, PROTO + "=") && SameIgnoringCase(junk, "RSN") then Done(Search(true, s.pwd, "WPA2-PSK"))
    else if Has(text, MGMT + "=") then Done(Search(true, s.pwd, s.key))
    else More(Search(true, s.pwd, s.key))
  }

  function SsidEffect(form: SsidForm, s: Search, junk: string): Answer {
    match form
    case Quoted(name) => Misread(name, s.(pwd := if Has(name, PSK + "=") then UpToQuote(name) else s.pwd), junk)
    case HexForm(_) => More(s)
  }

  function PskEffect(psk: Psk, s: Search, junk: string): Answer {
    match psk
    case NoPsk => More(s)
    case RawPsk(word) => More(s.(pwd := word))
    case Passphrase(text) => Misread(text, s.(pwd := UpToQuote(text)), junk)
  }

  /** From the passphrase line on, once the SSID is found. */
  function FromPsk(b: Block, s: Search, junk: string): Search {
    match PskEffect(b.psk, s, junk)
    case Done(t) => t
    case More(t) => Search(true, t.pwd, MgmtName(b.mgmt))
  }

  /** What the code returns for the block it takes, by its SSID line or only by its passphrase line; the protocol
      buffer may hold something else at each of the two. */
  function Actual(b: Block, bySsid: bool, pwd0: string, key0: string, junk1: string, junk2: string): Search {
    var s := Search(true, pwd0, key0);
    if !bySsid then FromPsk(b, s, junk2)
    else match SsidEffect(b.ssid, s, junk1)
      case Done(t) => t
      case More(t) => FromPsk(b, t, junk2)
  }

  predicate Mentions(form: SsidForm, base: string) {
    form.Quoted? && Has(form.name, base + "=")
  }

  predicate PskMentions(psk: Psk, base: string) {
    psk.Passphrase? && Has(psk.text, base + "=")
  }

  /** The passphrase the code has when it comes to the key management line; none if it wrote none. */
  function PskRead(b: Block, bySsid: bool): Option<string> {
    match b.psk
    case NoPsk => SsidPskRead(b, bySsid)
    case Passphrase(text) => Some(UpToQuote(text))
    case RawPsk(word) => Some(word)
  }

  function SsidPskRead(b: Block, bySsid: bool): Option<string> {
    if bySsid && Mentions(b.ssid, PSK) then Some(UpToQuote(b.ssid.name)) else None
  }

  /** A block that gives this passphrase and key management whatever the buffers held: no "key_mgmt=" inside a
      quoted text; what is read is what is wanted; and "proto=" inside a quoted text only where an early return
      makes no difference. */
  predicate Gives(b: Block, bySsid: bool, pwd: Option<string>, key: string) {
    && !(bySsid && Mentions(b.ssid, MGMT)) && !PskMentions(b.psk, MGMT)
    && PskRead(b, bySsid) == pwd && MgmtName(b.mgmt) == key
    && (bySsid && Mentions(b.ssid, PROTO) ==> SsidPskRead(b, bySsid) == pwd && key == "WPA2-PSK")
    && (PskMentions(b.psk, PROTO) ==> key == "WPA2-PSK")
  }

  /** The condition on a file under which looking up an SSID is right: the block the code takes gives what the first
      block for the SSID holds, or there is neither. */
  predicate RightFor(file: File, ssid: string) {
    match FirstMatch(file.blocks, ssid)
    case None => FirstTaken(file.blocks, ssid) == None
    case Some(b) =>
      match FirstTaken(file.blocks, ssid)
      case None => false
      case Some(a) => Gives(a, TakenFor(a.ssid, ssid), PskWanted(b.psk), MgmtName(b.mgmt))
  }

  /** Nothing in the block's quoted texts that the code could mistake. */
  predicate Ordinary(b: Block) {
    && (b.ssid.Quoted? ==> Free(b.ssid.name, STOPS))
    && (forall base | base in [PSK, PROTO, MGMT] :: !Mentions(b.ssid, base))
    && (b.psk.Passphrase? ==> '"' !in b.psk.text)
    && (forall base | base in [SSID, PROTO, MGMT] :: !PskMentions(b.psk, base))
  }

  // ---------------------------------------------------------------- keywords in lines

  predicate Keyword(base: string) {
    base == SSID || base == PSK || base == PROTO || base == MGMT
  }

  lemma LastDiffers(s: string, t: string)
    requires s != "" && t != "" && s[|s| - 1] != t[|t| - 1]
    ensures !EndsWith(s, t)
  {
    if |t| <= |s| {
      assert s[|s| - |t|..][|t| - 1] == s[|s| - 1];
    }
  }

  /** No keyword ends another one: their last letters differ. */
  lemma KeywordsApart(own: string, base: string)
    requires Keyword(own) && Keyword(base)
    ensures EndsWith("\t" + own, base) <==> own == base
  {
    assert SSID[|SSID| - 1] == 'd' && PSK[|PSK| - 1] == 'k' && PROTO[|PROTO| - 1] == 'o' && MGMT[|MGMT| - 1] == 't';
    if own == base {
      assert ("\t" + own)[1..] == own;
    } else {
      LastDiffers("\t" + own, base);
    }
  }

  lemma KeywordPlain(base: string)
    requires Keyword(base)
    ensures '=' !in base && '"' !in base && '\n' !in base && '=' !in "\t" + base && '"' !in "\t" + base
  {
  }

  /** A keyword occurs in `name="text"` only as the name or inside the text. */
  lemma QuotedLine(name: string, text: string, base: string)
    requires '=' !in name && '=' !in base && '"' !in base
    ensures Has(name + "=" + "\"" + text + "\"" + "\n", base + "=") <==> EndsWith(name, base) || Has(text, base + "=")
  {
    var key := base + "=";
    var line := name + "=" + "\"" + text + "\"" + "\n";
    assert line == (name + "=") + ['"'] + (text + ['"'] + "\n");
    HasSplits(name + "=", '"', text + ['"'] + "\n", key);
    HasSplits(text, '"', "\n", key);
    HasNeedsEquals("\n", base);
    HasAssignment(name, "", base);
    assert name + "=" + "" == name + "=";
  }

  /** In `name=value` without quotes a keyword occurs only as the name. */
  lemma BareLine(name: string, value: string, base: string)
    requires '=' !in name && '=' !in value && '=' !in base
    ensures Has(name + "=" + value + "\n", base + "=") <==> EndsWith(name, base)
  {
    assert name + "=" + value + "\n" == name + "=" + (value + "\n");
    HasAssignment(name, value + "\n", base);
  }

  /** A line `own="text"` contains its own keyword and those in the text. */
  lemma QuotedHas(own: string, text: string, base: string)
    requires Keyword(own) && Keyword(base)
    ensures Has("\t" + own + "=" + "\"" + text + "\"" + "\n", base + "=") <==> own == base || Has(text, base + "=")
  {
    KeywordPlain(own);
    KeywordPlain(base);
    KeywordsApart(own, base);
    QuotedLine("\t" + own, text, base);
  }

  /** A line `own=value` contains its own keyword only. */
  lemma BareHas(own: string, value: string, base: string)
    requires Keyword(own) && Keyword(base) && '=' !in value
    ensures Has("\t" + own + "=" + value + "\n", base + "=") <==> own == base
  {
    KeywordPlain(own);
    KeywordPlain(base);
    KeywordsApart(own, base);
    BareLine("\t" + own, value, base);
  }

  /** In `scan_ssid=value` and `bssid=value` only "ssid=" occurs. */
  lemma OtherSsidHas(name: string, value: string, base: string)
    requires name == "\tscan_ssid" || name == "\tbssid"
    requires Keyword(base) && '=' !in value
    ensures Has(name + "=" + value + "\n", base + "=") <==> base == SSID
  {
    KeywordPlain(base);
    OtherSsidName(name);
    BareLine(name, value, base);
    if base != SSID {
      assert PSK[|PSK| - 1] == 'k' && PROTO[|PROTO| - 1] == 'o' && MGMT[|MGMT| - 1] == 't';
      LastDiffers(name, base);
    }
  }

  lemma OtherSsidName(name: string)
    requires name == "\tscan_ssid" || name == "\tbssid"
    ensures '=' !in name && EndsWith(name, SSID) && |name| > 0 && name[|name| - 1] == 'd'
  {
    if name == "\tscan_ssid" {
      assert name[6..] == SSID;
    } else {
      assert name[2..] == SSID;
    }
  }

  /** A value without blanks or '#' is read back whole. */
  lemma ValueReads(name: string, v: string)
    requires '=' !in name && Free(v, STOPS)
    ensures '=' in name + "=" + v + "\n" && Value(name + "=" + v + "\n") == v
  {
    var line := name + "=" + v + "\n";
    assert line == name + ['='] + (v + "\n");
    PastFirst(name, '=', v + "\n");
    if v != "" {
      assert v[0] in v && (v + "\n")[0] == v[0];
    }
    assert v + "\n" == v + ['\n'] + "";
    TakeUntilStops(v, '\n', "", STOPS);
  }

  /** The value of a quoted line is the opening quote and what is left of the text after cutting. */
  lemma QuotedValue(name: string, text: string)
    requires '=' !in name
    ensures var line := name + "=" + "\"" + text + "\"" + "\n";
            '=' in line && Value(line) == "\"" + TakeUntil(text + "\"", STOPS)
  {
    var quoted := "\"" + text + "\"";
    var line := name + "=" + "\"" + text + "\"" + "\n";
    assert line == name + ['='] + (quoted + "\n");
    PastFirst(name, '=', quoted + "\n");
    assert (quoted + "\n")[0] == '"';
    assert quoted + "\n" == quoted + ['\n'] + "";
    TakeUntilBefore(quoted, '\n', "", STOPS);
    assert quoted[1..] == text + "\"";
  }

  lemma QuotedMatches(text: string, ssid: string, hex: string)
    ensures ValueMatches("\"" + TakeUntil(text + "\"", STOPS), ssid, hex) <==> ReadAs(text) == Some(ssid)
  {
    var cut := TakeUntil(text + "\"", STOPS);
    var v := "\"" + cut;
    if cut != "" {
      assert v[|v| - 1] == cut[|cut| - 1];
      if cut[|cut| - 1] == '"' {
        assert v[1..|v| - 1] == cut[..|cut| - 1];
      } else {
        assert Nibble(v[0]) < 0;
      }
    }
  }

  lemma HexIsBare(digits: string)
    requires AllHex(digits)
    ensures '=' !in digits && '"' !in digits && Free(digits, STOPS)
  {
    forall c | c in digits
      ensures c != '=' && c != '"' && c !in STOPS
    {
      var i :| 0 <= i < |digits| && digits[i] == c;
      assert Nibble(digits[i]) >= 0;
    }
  }
}
