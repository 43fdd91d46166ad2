/** The printed FFmpeg tee target and the tokenizer that reads it back: backslash
    escapes at two levels, quotes, and white space trimmed around a token. */
module TeeOutput {
  import opened Common

  // ----- Printing -----

  /** Ranging over a Go string yields a character per valid encoding, and U+FFFD for
      every byte outside one. */
  datatype Unit = Rune(c: char) | Stray(b: nat)

  function RuneOf(u: Unit): char {
    if u.Rune? then u.c else '\U{FFFD}'
  }

  function Ranged(value: seq<Unit>): (r: string)
    ensures |r| == |value| && forall i | 0 <= i < |value| :: r[i] == RuneOf(value[i])
  {
    seq(|value|, i requires 0 <= i < |value| => RuneOf(value[i]))
  }

  function Runes(s: string): (r: seq<Unit>)
    ensures |r| == |s| && forall i | 0 <= i < |s| :: r[i] == Rune(s[i])
  {
    seq(|s|, i requires 0 <= i < |s| => Rune(s[i]))
  }

  predicate WellEncoded(value: seq<Unit>) {
    forall i | 0 <= i < |value| :: value[i].Rune?
  }

  /** Exactly the well-encoded strings survive. */
  lemma RangedFaithfully(value: seq<Unit>)
    ensures Runes(Ranged(value)) == value <==> WellEncoded(value)
  {
    if WellEncoded(value) {
      assert Runes(Ranged(value)) == value;
    } else {
      var i :| 0 <= i < |value| && value[i].Stray?;
      assert Runes(Ranged(value))[i].Rune?;
    }
  }

  predicate Special(c: char, terminators: string) { c == '\\' || c == '\'' || c in terminators || IsSpace(c) }

  function EscapedChar(c: char, terminators: string): string {
    if Special(c, terminators) then ['\\', c] else [c]
  }

  function Escape(value: string, terminators: string): string {
    if value == "" then "" else EscapedChar(value[0], terminators) + Escape(value[1..], terminators)
  }

  /** A character gets a backslash exactly when it is one of these. */
  lemma EscapedExactly(c: char, terminators: string)
    ensures |EscapedChar(c, terminators)| == 2 <==> c == '\\' || c == '\'' || c in terminators || IsSpace(c)
    ensures |EscapedChar(c, terminators)| != 2 ==> EscapedChar(c, terminators) == [c]
  {
  }

  lemma Regrouped(a: string, b: string, c: string)
    ensures a + (b + c) == a + b + c
  {
  }

  lemma Shifted(a: string, b: string)
    requires a != ""
    ensures (a + b)[0] == a[0] && (a + b)[1..] == a[1..] + b
  {
  }

  lemma {:induction false} EscapeJoins(a: string, b: string, terminators: string)
    ensures Escape(a + b, terminators) == Escape(a, terminators) + Escape(b, terminators)
  {
    if a == "" {
      assert a + b == b;
    } else {
      EscapeJoins(a[1..], b, terminators);
      Shifted(a, b);
      Regrouped(EscapedChar(a[0], terminators), Escape(a[1..], terminators), Escape(b, terminators));
    }
  }

  lemma {:induction false} PlainStays(value: string, terminators: string)
    requires forall i | 0 <= i < |value| :: !Special(value[i], terminators)
    ensures Escape(value, terminators) == value
  {
    if value != "" {
      PlainStays(value[1..], terminators);
    }
  }

  method EscapeFFmpegToken(value: seq<Unit>, terminators: string) returns (escaped: string)
    ensures escaped == Escape(Ranged(value), terminators)
  {
    escaped := "";
    var done: seq<Unit> := [];
    for i := 0 to |value|
      invariant done == value[..i] && escaped == Escape(Ranged(done), terminators)
    {
      var c := RuneOf(value[i]);
      EscapeJoins(Ranged(done), [c], terminators);
      assert Ranged(done + [value[i]]) == Ranged(done) + [c];
      if c == '\\' || c == '\'' || c in terminators || IsSpace(c) {
        escaped := escaped + ['\\'];
      }
      escaped := escaped + [c];
      done := done + [value[i]];
    }
    assert done == value;
  }

  datatype Opt = Opt(key: string, value: string)
  datatype Slave = Slave(options: seq<Opt>, url: string)

  function OptionText(o: Opt): string {
    o.key + "=" + Escape(o.value, ":]")
  }

  function OptionsText(options: seq<Opt>): string {
    if options == [] then ""
    else if |options| == 1 then OptionText(options[0])
    else OptionText(options[0]) + ":" + OptionsText(options[1..])
  }

  function SlaveText(s: Slave): string {
    "[" + OptionsText(s.options) + "]" + s.url
  }

  function TeeText(slaves: seq<Slave>): string {
    if slaves == [] then ""
    else if |slaves| == 1 then Escape(SlaveText(slaves[0]), "|")
    else Escape(SlaveText(slaves[0]), "|") + "|" + TeeText(slaves[1..])
  }

  // ----- Reading back -----

  /** The white space that the tokenizer skips and trims. */
  predicate Blank(c: char) { c == ' ' || c == '\n' || c == '\t' || c == '\r' }

  datatype Token = Token(value: string, rest: string, quoted: bool)

  function SkipBlanks(s: string): (r: string)
    ensures |r| <= |s|
  {
    if s != "" && Blank(s[0]) then SkipBlanks(s[1..]) else s
  }

  /** Drops blanks from the end, down to the part that was escaped or quoted. */
  function TrimBlanks(value: string, kept: nat): string {
    if |value| > kept && Blank(value[|value| - 1]) then TrimBlanks(value[..|value| - 1], kept) else value
  }

  function QuoteEnd(s: string): (n: nat)
    ensures n <= |s| && (n < |s| ==> s[n] == '\'')
  {
    if s == "" || s[0] == '\'' then 0 else 1 + QuoteEnd(s[1..])
  }

  /** Reads up to an unescaped terminator. `kept` marks what trimming must leave. */
  function Scan(s: string, terminators: string, value: string, kept: nat, quoted: bool): (t: Token)
    ensures |t.rest| <= |s| && (s != "" && s[0] !in terminators ==> |t.rest| < |s|)
    decreases |s|
  {
    if s == "" || s[0] in terminators then Token(TrimBlanks(value, kept), s, quoted)
    else if s[0] == '\\' && |s| > 1 then Scan(s[2..], terminators, value + [s[1]], |value| + 1, quoted)
    else if s[0] == '\'' then
      var n := QuoteEnd(s[1..]);
      var inside := value + s[1..][..n];
      if n < |s[1..]| then Scan(s[1..][n + 1..], terminators, inside, |inside|, true)
      else Scan("", terminators, inside, kept, true)
    else Scan(s[1..], terminators, value + [s[0]], kept, quoted)
  }

  function GetToken(s: string, terminators: string): (t: Token)
    ensures |t.rest| <= |s| && (s != "" && s[0] !in terminators ==> |t.rest| < |s|)
  {
    Scan(SkipBlanks(s), terminators, "", 0, false)
  }

  datatype Parsed<T> = Malformed | Parsed(result: T, quoted: bool)

  function KeyEnd(s: string): (n: nat)
    ensures n <= |s|
  {
    if s == "" || s[0] == '=' then 0 else 1 + KeyEnd(s[1..])
  }

  /** Options up to the closing bracket, then the URL as it stands. */
  function ParseOptions(s: string): Parsed<Slave>
    decreases |s|
  {
    var n := KeyEnd(s);
    if n == |s| then Malformed
    else
      var t := GetToken(s[n + 1..], ":]");
      var option := Opt(s[..n], t.value);
      if t.rest == "" then Malformed
      else if t.rest[0] == ']' then Parsed(Slave([option], t.rest[1..]), t.quoted)
      else
        match ParseOptions(t.rest[1..])
        case Malformed => Malformed
        case Parsed(slave, quoted) => Parsed(Slave([option] + slave.options, slave.url), t.quoted || quoted)
  }

  function ParseSlave(s: string): Parsed<Slave> {
    if s == "" || s[0] != '[' then Parsed(Slave([], s), false) else ParseOptions(s[1..])
  }

  function ParseTee(s: string): Parsed<seq<Slave>>
    decreases |s|
  {
    if s == "" then Parsed([], false)
    else
      var t := GetToken(s, "|");
      var rest := if t.rest != "" then t.rest[1..] else "";
      match ParseSlave(t.value)
      case Malformed => Malformed
      case Parsed(slave, quoted) =>
        match ParseTee(rest)
        case Malformed => Malformed
        case Parsed(slaves, more) => Parsed([slave] + slaves, t.quoted || quoted || more)
  }

  // ----- The round trip -----

  predicate Ends(rest: string, terminators: string) { rest == "" || rest[0] in terminators }

  /** Beyond the part that trimming leaves there is no white space anyway. */
  predicate Tight(value: string, kept: nat) {
    kept <= |value| && forall i | kept <= i < |value| :: !Blank(value[i])
  }

  lemma TightIsWhole(value: string, kept: nat)
    requires Tight(value, kept)
    ensures TrimBlanks(value, kept) == value
  {
  }

  /** One printed character is read back as itself. */
  lemma ScanOne(c: char, terminators: string, tail: string, value: string, kept: nat)
    requires '\\' !in terminators
    ensures Scan(EscapedChar(c, terminators) + tail, terminators, value, kept, false)
         == Scan(tail, terminators, value + [c], if Special(c, terminators) then |value| + 1 else kept, false)
  {
    var s := EscapedChar(c, terminators) + tail;
    if Special(c, terminators) {
      assert s[0] == '\\' && s[1] == c && s[2..] == tail;
    } else {
      assert s[0] == c && s[1..] == tail;
    }
  }

  lemma TightOneMore(c: char, terminators: string, value: string, kept: nat)
    requires Tight(value, kept)
    ensures Tight(value + [c], if Special(c, terminators) then |value| + 1 else kept)
  {
  }

  lemma {:induction false} ScanEscaped(v: string, terminators: string, rest: string, value: string, kept: nat)
    requires Ends(rest, terminators) && Tight(value, kept) && '\\' !in terminators
    ensures Scan(Escape(v, terminators) + rest, terminators, value, kept, false) == Token(value + v, rest, false)
    decreases |v|
  {
    if v == "" {
      assert Escape(v, terminators) + rest == rest && value + v == value;
      TightIsWhole(value, kept);
    } else {
      Regrouped(EscapedChar(v[0], terminators), Escape(v[1..], terminators), rest);
      ScanOne(v[0], terminators, Escape(v[1..], terminators) + rest, value, kept);
      TightOneMore(v[0], terminators, value, kept);
      ScanEscaped(v[1..], terminators, rest, value + [v[0]], if Special(v[0], terminators) then |value| + 1 else kept);
      Regrouped(value, [v[0]], v[1..]);
      assert [v[0]] + v[1..] == v;
    }
  }

  /** A printed token reads back whole, for every string. */
  lemma TokenRoundTrip(v: string, terminators: string, rest: string)
    requires Ends(rest, terminators) && '\\' !in terminators
    requires forall i | 0 <= i < |terminators| :: !Blank(terminators[i])
    ensures GetToken(Escape(v, terminators) + rest, terminators) == Token(v, rest, false)
  {
    var s := Escape(v, terminators) + rest;
    assert s != "" ==> !Blank(s[0]) by {
      if v == "" {
        assert s == rest;
      } else {
        assert s[0] == EscapedChar(v[0], terminators)[0];
      }
    }
    ScanEscaped(v, terminators, rest, "", 0);
    assert "" + v == v;
  }

  predicate PlainKey(key: string) { '=' !in key }

  lemma {:induction false} KeyEndsAt(key: string, rest: string)
    requires PlainKey(key)
    ensures KeyEnd(key + "=" + rest) == |key|
  {
    var s := key + "=" + rest;
    if key != "" {
      assert s[1..] == key[1..] + "=" + rest;
      KeyEndsAt(key[1..], rest);
    }
  }

  predicate GoodOptions(options: seq<Opt>) {
    options != [] && forall i | 0 <= i < |options| :: PlainKey(options[i].key)
  }

  lemma OptionParses(o: Opt, rest: string)
    requires PlainKey(o.key) && rest != "" && rest[0] in ":]"
    ensures var s := OptionText(o) + rest;
            && KeyEnd(s) == |o.key| && s[..|o.key|] == o.key && |s| > |o.key|
            && GetToken(s[|o.key| + 1..], ":]") == Token(o.value, rest, false)
  {
    var s := OptionText(o) + rest;
    assert s == o.key + "=" + (Escape(o.value, ":]") + rest);
    KeyEndsAt(o.key, Escape(o.value, ":]") + rest);
    assert s[|o.key| + 1..] == Escape(o.value, ":]") + rest;
    TokenRoundTrip(o.value, ":]", rest);
  }

  lemma LastOptionParses(o: Opt, url: string)
    requires PlainKey(o.key)
    ensures ParseOptions(OptionText(o) + ("]" + url)) == Parsed(Slave([o], url), false)
  {
    OptionParses(o, "]" + url);
    Shifted("]", url);
  }

  lemma EarlierOptionParses(o: Opt, more: string, slave: Slave)
    requires PlainKey(o.key) && ParseOptions(more) == Parsed(slave, false)
    ensures ParseOptions(OptionText(o) + (":" + more)) == Parsed(Slave([o] + slave.options, slave.url), false)
  {
    OptionParses(o, ":" + more);
    Shifted(":", more);
  }

  lemma {:induction false} OptionsRoundTrip(options: seq<Opt>, url: string)
    requires GoodOptions(options)
    ensures ParseOptions(OptionsText(options) + ("]" + url)) == Parsed(Slave(options, url), false)
    decreases |options|
  {
    var o := options[0];
    if |options| == 1 {
      LastOptionParses(o, url);
      assert options == [o];
    } else {
      OptionsRoundTrip(options[1..], url);
      EarlierOptionParses(o, OptionsText(options[1..]) + ("]" + url), Slave(options[1..], url));
      Regrouped(OptionText(o) + ":", OptionsText(options[1..]), "]" + url);
      Regrouped(OptionText(o), ":", OptionsText(options[1..]) + ("]" + url));
      assert [o] + options[1..] == options;
    }
  }

  lemma SlaveTextParses(s: Slave)
    requires GoodOptions(s.options)
    ensures SlaveText(s) != "" && ParseSlave(SlaveText(s)) == Parsed(s, false)
  {
    OptionsRoundTrip(s.options, s.url);
    var options := OptionsText(s.options);
    Regrouped("[" + options, "]", s.url);
    Regrouped("[", options, "]" + s.url);
    Shifted("[", options + ("]" + s.url));
  }

  lemma SlaveParses(s: Slave, more: string)
    requires GoodOptions(s.options) && Ends(more, "|")
    ensures var printed := Escape(SlaveText(s), "|");
            && printed != "" && GetToken(printed + more, "|") == Token(SlaveText(s), more, false)
            && ParseSlave(SlaveText(s)) == Parsed(s, false)
  {
    SlaveTextParses(s);
    TokenRoundTrip(SlaveText(s), "|", more);
    assert Escape(SlaveText(s), "|")[0] == EscapedChar(SlaveText(s)[0], "|")[0];
  }

  lemma LastSlaveReads(s: Slave)
    requires GoodOptions(s.options)
    ensures ParseTee(Escape(SlaveText(s), "|")) == Parsed([s], false)
  {
    SlaveParses(s, "");
    assert Escape(SlaveText(s), "|") + "" == Escape(SlaveText(s), "|");
    assert ParseTee("") == Parsed([], false);
    assert [s] + [] == [s];
  }

  lemma EarlierSlaveReads(s: Slave, text: string, slaves: seq<Slave>)
    requires GoodOptions(s.options) && ParseTee(text) == Parsed(slaves, false)
    ensures ParseTee(Escape(SlaveText(s), "|") + ("|" + text)) == Parsed([s] + slaves, false)
  {
    SlaveParses(s, "|" + text);
    Shifted("|", text);
  }

  /** For all slaves, option values and URLs, reading the printed text recovers
      exactly what was printed and never enters a quotation. */
  lemma {:induction false} TeeRoundTrip(slaves: seq<Slave>)
    requires forall i | 0 <= i < |slaves| :: GoodOptions(slaves[i].options)
    ensures ParseTee(TeeText(slaves)) == Parsed(slaves, false)
    decreases |slaves|
  {
    if |slaves| == 1 {
      LastSlaveReads(slaves[0]);
      assert slaves == [slaves[0]];
    } else if slaves != [] {
      TeeRoundTrip(slaves[1..]);
      EarlierSlaveReads(slaves[0], TeeText(slaves[1..]), slaves[1..]);
      Regrouped(Escape(SlaveText(slaves[0]), "|"), "|", TeeText(slaves[1..]));
      assert slaves == [slaves[0]] + slaves[1..];
    }
  }

  // ----- The live output -----

  function Joined(parts: seq<string>, separator: string): string {
    if parts == [] then ""
    else if |parts| == 1 then parts[0]
    else parts[0] + separator + Joined(parts[1..], separator)
  }

  function PrintedOptions(options: seq<Opt>): (r: seq<string>)
    ensures |r| == |options| && forall i | 0 <= i < |r| :: r[i] == Escape(OptionText(options[i]), "|")
  {
    seq(|options|, i requires 0 <= i < |options| => Escape(OptionText(options[i]), "|"))
  }

  lemma {:induction false} OptionsPrint(options: seq<Opt>)
    ensures Escape(OptionsText(options), "|") == Joined(PrintedOptions(options), ":")
    decreases |options|
  {
    if |options| > 1 {
      OptionsPrint(options[1..]);
      PlainStays(":", "|");
      EscapeJoins(OptionText(options[0]), ":", "|");
      EscapeJoins(OptionText(options[0]) + ":", OptionsText(options[1..]), "|");
      assert PrintedOptions(options)[1..] == PrintedOptions(options[1..]);
    }
  }

  /** Text made of these characters needs no escape anywhere. */
  predicate WordChar(c: char) { 'a' <= c <= 'z' || '0' <= c <= '9' || c == '_' || c == '+' }

  predicate Word(text: string) {
    forall i | 0 <= i < |text| :: WordChar(text[i])
  }

  /** An option as the source spells it: fixed text, or a value escaped twice. */
  datatype Item = Item(key: string, value: string, escaped: bool)

  predicate GoodItem(o: Item) { Word(o.key) && (o.escaped || Word(o.value)) }

  predicate GoodItems(items: seq<Item>) {
    items != [] && forall i | 0 <= i < |items| :: GoodItem(items[i])
  }

  function KeyValue(key: string, value: string): string {
    key + "=" + value
  }

  function ItemText(o: Item): string {
    KeyValue(o.key, if o.escaped then Escape(Escape(o.value, ":]"), "|") else o.value)
  }

  function OptOf(o: Item): Opt { Opt(o.key, o.value) }

  function Opts(items: seq<Item>): (r: seq<Opt>)
    ensures |r| == |items| && forall i | 0 <= i < |r| :: r[i] == OptOf(items[i])
  {
    seq(|items|, i requires 0 <= i < |items| => OptOf(items[i]))
  }

  function ItemTexts(items: seq<Item>): (r: seq<string>)
    ensures |r| == |items| && forall i | 0 <= i < |r| :: r[i] == ItemText(items[i])
  {
    seq(|items|, i requires 0 <= i < |items| => ItemText(items[i]))
  }

  lemma WordStays(text: string)
    requires Word(text)
    ensures Escape(text, "|") == text && Escape(text, ":]") == text && PlainKey(text)
  {
    forall i | 0 <= i < |text| ensures !Special(text[i], "|") && !Special(text[i], ":]") {
      assert WordChar(text[i]);
    }
    PlainStays(text, "|");
    PlainStays(text, ":]");
  }

  lemma ItemPrints(o: Item)
    requires GoodItem(o)
    ensures Escape(OptionText(OptOf(o)), "|") == ItemText(o) && PlainKey(o.key)
  {
    WordStays(o.key);
    PlainStays("=", "|");
    EscapeJoins(o.key, "=", "|");
    EscapeJoins(o.key + "=", Escape(o.value, ":]"), "|");
    if !o.escaped {
      WordStays(o.value);
    }
  }

  lemma ItemsPrint(items: seq<Item>)
    requires GoodItems(items)
    ensures PrintedOptions(Opts(items)) == ItemTexts(items) && GoodOptions(Opts(items))
  {
    forall i | 0 <= i < |items|
      ensures PrintedOptions(Opts(items))[i] == ItemTexts(items)[i] && PlainKey(items[i].key)
    {
      ItemPrints(items[i]);
    }
  }

  lemma SlavePrints(s: Slave, parts: seq<string>)
    requires parts == PrintedOptions(s.options)
    ensures Escape(SlaveText(s), "|") == "[" + Joined(parts, ":") + "]" + Escape(s.url, "|")
  {
    OptionsPrint(s.options);
    PlainStays("[", "|");
    PlainStays("]", "|");
    EscapeJoins("[", OptionsText(s.options), "|");
    EscapeJoins("[" + OptionsText(s.options), "]", "|");
    EscapeJoins("[" + OptionsText(s.options) + "]", s.url, "|");
  }

  predicate AllSpace(s: string) { forall i | 0 <= i < |s| :: IsSpace(s[i]) }

  const LiveItems := [Item("f", "flv", false), Item("onfail", "ignore", false)]
  const ArchiveItems := [Item("f", "matroska", false), Item("onfail", "abort", false)]

  function PreviewItems(segments: string): seq<Item> {
    [Item("f", "hls", false), Item("onfail", "ignore", false), Item("use_fifo", "1", false),
     Item("fifo_options", "queue_size=1200:drop_pkts_on_overflow=1", true), Item("hls_time", "2", false),
     Item("hls_list_size", "0", false), Item("hls_flags", "independent_segments+temp_file", false),
     Item("hls_segment_filename", segments, true)]
  }

  function SlavesOf(live: string, archive: string, playlist: string, preview: bool, basic: seq<Item>,
                    durable: seq<Item>, hls: seq<Item>): seq<Slave> {
    var first, second := Slave(Opts(basic), live), Slave(Opts(durable), archive);
    if preview then [first, second, Slave(Opts(hls), playlist)] else [first, second]
  }

  /** What the tee is meant to write to; `clean` and `segments` stand for the path
      functions applied to the archive and preview paths. */
  function LiveSlaves(target: seq<Unit>, archive: seq<Unit>, preview: seq<Unit>, clean: seq<Unit> -> seq<Unit>,
                      segments: seq<Unit> -> seq<Unit>): seq<Slave> {
    SlavesOf(Ranged(target), Ranged(clean(archive)), Ranged(clean(preview)), !AllSpace(Ranged(preview)),
             LiveItems, ArchiveItems, PreviewItems(Ranged(segments(preview))))
  }

  predicate IsOption(o: Opt, key: string, value: string) { o.key == key && o.value == value }

  /** The live target may fail, the archive may not: the order and the options of the
      slaves, spelled out. */
  lemma LiveSlavesSpelled(target: seq<Unit>, archive: seq<Unit>, preview: seq<Unit>, clean: seq<Unit> -> seq<Unit>,
                          segments: seq<Unit> -> seq<Unit>)
    ensures var slaves := LiveSlaves(target, archive, preview, clean, segments);
            && |slaves| == (if AllSpace(Ranged(preview)) then 2 else 3)
            && slaves[0].url == Ranged(target) && |slaves[0].options| == 2
            && IsOption(slaves[0].options[0], "f", "flv") && IsOption(slaves[0].options[1], "onfail", "ignore")
            && slaves[1].url == Ranged(clean(archive)) && |slaves[1].options| == 2
            && IsOption(slaves[1].options[0], "f", "matroska") && IsOption(slaves[1].options[1], "onfail", "abort")
            && (|slaves| == 3 ==> slaves[2].url == Ranged(clean(preview)))
            && (|slaves| == 3 ==> slaves[2].options == Opts(PreviewItems(Ranged(segments(preview)))))
  {
  }

  /** The preview is optional too, keeps every segment and never holds up the others. */
  lemma PreviewSpelled(segments: string)
    ensures var options := Opts(PreviewItems(segments));
            && |options| == 8
            && IsOption(options[0], "f", "hls") && IsOption(options[1], "onfail", "ignore")
            && IsOption(options[2], "use_fifo", "1")
            && IsOption(options[3], "fifo_options", "queue_size=1200:drop_pkts_on_overflow=1")
            && IsOption(options[4], "hls_time", "2") && IsOption(options[5], "hls_list_size", "0")
            && IsOption(options[6], "hls_flags", "independent_segments+temp_file")
            && IsOption(options[7], "hls_segment_filename", segments)
  {
  }

  lemma BasicItemsGood()
    ensures GoodItems(LiveItems) && GoodItems(ArchiveItems)
  {
  }

  lemma FlagsAreWord()
    ensures Word("independent_segments+temp_file")
  {
  }

  lemma FlagsGood(value: string)
    requires Word(value)
    ensures GoodItem(Item("hls_flags", value, false))
  {
  }

  lemma PreviewItemsGood(segments: string)
    ensures GoodItems(PreviewItems(segments))
  {
    FlagsAreWord();
    FlagsGood("independent_segments+temp_file");
    forall i | 0 <= i < |PreviewItems(segments)| ensures GoodItem(PreviewItems(segments)[i]) {
    }
  }

  method EscapeTeeOptionValue(value: seq<Unit>) returns (r: string)
    ensures r == Escape(Escape(Ranged(value), ":]"), "|")
  {
    var inner := EscapeFFmpegToken(value, ":]");
    r := EscapeFFmpegToken(Runes(inner), "|");
    assert Ranged(Runes(inner)) == inner;
  }

  method EscapeTeeSlaveURL(value: seq<Unit>) returns (r: string)
    ensures r == Escape(Ranged(value), "|")
  {
    r := EscapeFFmpegToken(value, "|");
  }

  /** The text of one slave. */
  method PrintSlave(items: seq<Item>, url: seq<Unit>) returns (r: string)
    requires GoodItems(items)
    ensures r == Escape(SlaveText(Slave(Opts(items), Ranged(url))), "|") && GoodOptions(Opts(items))
  {
    var options: seq<string> := [];
    for i := 0 to |items|
      invariant options == ItemTexts(items)[..i]
    {
      var value := items[i].value;
      if items[i].escaped {
        value := EscapeTeeOptionValue(Runes(items[i].value));
        assert Ranged(Runes(items[i].value)) == items[i].value;
      }
      options := options + [items[i].key + "=" + value];
    }
    ItemsPrint(items);
    SlavePrints(Slave(Opts(items), Ranged(url)), options);
    var escaped := EscapeTeeSlaveURL(url);
    r := "[" + Joined(options, ":") + "]" + escaped;
  }

  lemma TextsJoin(slaves: seq<Slave>, texts: seq<string>)
    requires |texts| == |slaves| && forall i | 0 <= i < |slaves| :: texts[i] == Escape(SlaveText(slaves[i]), "|")
    ensures Joined(texts, "|") == TeeText(slaves)
    decreases |slaves|
  {
    if |slaves| > 1 {
      TextsJoin(slaves[1..], texts[1..]);
    }
  }

  method PrintSlaves(live: seq<Unit>, archive: seq<Unit>, playlist: seq<Unit>, preview: bool, basic: seq<Item>,
                     durable: seq<Item>, hls: seq<Item>)
    returns (r: string)
    requires GoodItems(basic) && GoodItems(durable) && GoodItems(hls)
    ensures var slaves := SlavesOf(Ranged(live), Ranged(archive), Ranged(playlist), preview, basic, durable, hls);
            r == TeeText(slaves) && ParseTee(r) == Parsed(slaves, false)
  {
    var first := PrintSlave(basic, live);
    var second := PrintSlave(durable, archive);
    if !preview {
      PrintedTwo(Slave(Opts(basic), Ranged(live)), first, Slave(Opts(durable), Ranged(archive)), second);
      return Joined([first, second], "|");
    }
    var third := PrintSlave(hls, playlist);
    PrintedThree(Slave(Opts(basic), Ranged(live)), first, Slave(Opts(durable), Ranged(archive)), second,
                 Slave(Opts(hls), Ranged(playlist)), third);
    return Joined([first, second, third], "|");
  }

  /** The text is that of a slave whose options can be read back. */
  predicate Prints(text: string, s: Slave) { text == Escape(SlaveText(s), "|") && GoodOptions(s.options) }

  lemma PrintedTwo(a: Slave, ta: string, b: Slave, tb: string)
    requires Prints(ta, a) && Prints(tb, b)
    ensures Joined([ta, tb], "|") == TeeText([a, b]) && ParseTee(Joined([ta, tb], "|")) == Parsed([a, b], false)
  {
    PrintedTee([a, b], [ta, tb]);
  }

  lemma PrintedThree(a: Slave, ta: string, b: Slave, tb: string, c: Slave, tc: string)
    requires Prints(ta, a) && Prints(tb, b) && Prints(tc, c)
    ensures Joined([ta, tb, tc], "|") == TeeText([a, b, c])
    ensures ParseTee(Joined([ta, tb, tc], "|")) == Parsed([a, b, c], false)
  {
    PrintedTee([a, b, c], [ta, tb, tc]);
  }

  lemma PrintedTee(slaves: seq<Slave>, texts: seq<string>)
    requires |texts| == |slaves| && forall i | 0 <= i < |slaves| :: texts[i] == Escape(SlaveText(slaves[i]), "|")
    requires forall i | 0 <= i < |slaves| :: GoodOptions(slaves[i].options)
    ensures Joined(texts, "|") == TeeText(slaves) && ParseTee(Joined(texts, "|")) == Parsed(slaves, false)
  {
    TextsJoin(slaves, texts);
    TeeRoundTrip(slaves);
  }

  /** Whatever the target and the paths contain, the tee reads back as meant. */
  method BuildLiveTeeOutput(target: seq<Unit>, archive: seq<Unit>, preview: seq<Unit>, clean: seq<Unit> -> seq<Unit>,
                            segments: seq<Unit> -> seq<Unit>)
    returns (r: string)
    ensures ParseTee(r) == Parsed(LiveSlaves(target, archive, preview, clean, segments), false)
    ensures var slaves := ParseTee(r).result;
            && |slaves| == (if AllSpace(Ranged(preview)) then 2 else 3)
            && slaves[0].url == Ranged(target) && IsOption(slaves[0].options[1], "onfail", "ignore")
            && slaves[1].url == Ranged(clean(archive)) && IsOption(slaves[1].options[1], "onfail", "abort")
  {
    LiveSlavesSpelled(target, archive, preview, clean, segments);
    var hls := PreviewItems(Ranged(segments(preview)));
    BasicItemsGood();
    PreviewItemsGood(Ranged(segments(preview)));
    r := PrintSlaves(target, clean(archive), clean(preview), !AllSpace(Ranged(preview)),
                     LiveItems, ArchiveItems, hls);
  }
}
