/** The textual settings of a device: printing them, and parsing what is written back.

    The parser works on a 256-byte buffer of which only the first bytes were filled; what follows them is
    arbitrary and is part of the text given to the functions here.  Numbers are read the way the kernel's
    simple_strtoul reads them, in 32 bits. */
module Settings {

  datatype Option<T> = None | Some(value: T)

  const WORD: nat := 0x1_0000_0000

  datatype Settings = Settings(enabled: nat, async: nat, outLimit: nat, inLimit: nat, dumper: nat)

  datatype Key = Enabled | Async | OutLimit | InLimit

  /** A number that was read and where it ended. */
  datatype Read = Read(value: nat, end: nat)

  predicate IsDelimiter(c: char) {
    c == ' ' || c == '\t' || c == ',' || c == ':' || c == '\n'
  }

  /** The first position from p on that holds no delimiter. */
  function Skip(t: string, p: nat): (q: nat)
    requires p <= |t|
    ensures p <= q <= |t|
    decreases |t| - p
  {
    if p < |t| && IsDelimiter(t[p]) then Skip(t, p + 1) else p
  }

  /** The value of a hexadecimal digit, or 16. */
  function DigitOf(c: char): (d: nat)
    ensures d <= 16
  {
    if '0' <= c <= '9' then (c - '0') as nat
    else if 'a' <= c <= 'f' then (c - 'a') as nat + 10
    else if 'A' <= c <= 'F' then (c - 'A') as nat + 10
    else 16
  }

  predicate DigitAt(t: string, p: nat, base: nat) {
    p < |t| && DigitOf(t[p]) < 16 && DigitOf(t[p]) < base
  }

  function Number(t: string, p: nat, base: nat, acc: nat): (r: Read)
    requires p <= |t|
    ensures p <= r.end <= |t|
    decreases |t| - p
  {
    if DigitAt(t, p, base) then Number(t, p + 1, base, (acc * base + DigitOf(t[p])) % WORD) else Read(acc, p)
  }

  /** Reads a number; base 0 means that its prefix decides. */
  function Strtoul(t: string, p: nat, base: nat): (r: Read)
    requires p <= |t|
    ensures p <= r.end <= |t|
  {
    if base != 0 then Number(t, p, base, 0)
    else if p < |t| && t[p] == '0' then
      if p + 1 < |t| && t[p + 1] == 'x' && DigitAt(t, p + 2, 16) then Number(t, p + 2, 16, 0)
      else Number(t, p + 1, 8, 0)
    else Number(t, p, 10, 0)
  }

  function Name(k: Key): string {
    match k
    case Enabled => "Enabled:"
    case Async => "Async:"
    case OutLimit => "OutLimit:"
    case InLimit => "InLimit:"
  }

  function Base(k: Key): nat {
    match k
    case Enabled => 10
    case Async => 10
    case _ => 0
  }

  function Set(s: Settings, k: Key, v: nat): Settings {
    match k
    case Enabled => s.(enabled := v)
    case Async => s.(async := v)
    case OutLimit => s.(outLimit := v)
    case InLimit => s.(inLimit := v)
  }

  function Get(s: Settings, k: Key): nat {
    match k
    case Enabled => s.enabled
    case Async => s.async
    case OutLimit => s.outLimit
    case InLimit => s.inLimit
  }

  predicate Here(t: string, p: nat, name: string) {
    p + |name| <= |t| && t[p..p + |name|] == name
  }

  function KeyAt(t: string, p: nat): (k: Option<Key>)
    ensures k.Some? ==> p + |Name(k.value)| <= |t|
  {
    if Here(t, p, Name(Enabled)) then Some(Enabled)
    else if Here(t, p, Name(Async)) then Some(Async)
    else if Here(t, p, Name(OutLimit)) then Some(OutLimit)
    else if Here(t, p, Name(InLimit)) then Some(InLimit)
    else None
  }

  /** A complete setting found in a text, and where it ends. */
  datatype Found = Found(key: Key, value: nat, end: nat)

  /** The next complete setting from position p on of a text of which the first `end` characters were written. */
  function Find(t: string, p: nat, end: nat): (f: Option<Found>)
    requires p <= |t|
    ensures f.Some? ==> p < f.value.end <= |t|
  {
    var q := Skip(t, p);
    if end <= q then None
    else
      match KeyAt(t, q)
      case None => None
      case Some(k) =>
        var r := Strtoul(t, q + |Name(k)|, Base(k));
        if r.end == q + |Name(k)| then None else Some(Found(k, r.value, r.end))
  }

  /** The settings stored after parsing a text from position p on. */
  function Parse(t: string, p: nat, end: nat, s: Settings): Settings
    requires p <= |t|
    decreases |t| - p
  {
    match Find(t, p, end)
    case None => s
    case Some(f) => Parse(t, f.end, end, Set(s, f.key, f.value))
  }

  // ---------- the loops

  method EatDelimiters(a: string, p: nat) returns (q: nat)
    requires p <= |a|
    ensures q == Skip(a, p)
  {
    q := p;
    while q < |a| && IsDelimiter(a[q])
      invariant p <= q <= |a| && Skip(a, p) == Skip(a, q)
    {
      q := q + 1;
    }
  }

  /** Parses a buffer of which `end` characters were written, storing after each complete setting. */
  method WriteSettings(a: string, end: nat, given: Settings) returns (stored: Settings)
    requires end <= |a|
    ensures stored == Parse(a, 0, end, given)
  {
    var cur: nat, s := 0, given;
    stored := given;
    while true
      invariant cur <= |a| && s == stored
      invariant Parse(a, 0, end, given) == Parse(a, cur, end, s)
      decreases |a| - cur
    {
      var at := EatDelimiters(a, cur);
      if at >= end {
        break;
      }
      var key := KeyAt(a, at);
      if key.None? {
        break;
      }
      var number := at + |Name(key.value)|;
      var r := Strtoul(a, number, Base(key.value));
      s := Set(s, key.value, r.value);
      if r.end == number {
        break;
      }
      cur := r.end;
      stored := s;
    }
  }

  const DEVICES := 16

  const BUFFER := 255

  const EINVAL: int := 22

  /** The settings of all devices. */
  class DeviceTable {
    var settings: array<Settings>

    constructor (initial: Settings)
      ensures fresh(settings) && settings.Length == DEVICES
      ensures forall i :: 0 <= i < DEVICES ==> settings[i] == initial
    {
      settings := new Settings[DEVICES](i => initial);
    }

    /** A write to the settings file of a device.  The first 255 characters are looked at; junk is what the
        rest of the parser's buffer holds. */
    method Write(device: nat, text: string, junk: string) returns (result: int)
      requires settings.Length == DEVICES
      modifies settings
      ensures device >= DEVICES ==> result == -EINVAL && settings[..] == old(settings[..])
      ensures device < DEVICES ==>
                var end := if |text| < BUFFER then |text| else BUFFER;
                && result == |text|
                && settings[..] == old(settings[..])[device := Parse(text[..end] + junk, 0, end, old(settings[device]))]
    {
      if device >= DEVICES {
        return -EINVAL;
      }
      var end := if |text| < BUFFER then |text| else BUFFER;
      settings[device] := WriteSettings(text[..end] + junk, end, settings[device]);
      result := |text|;
    }
  }

  // ---------- well-formed text

  /** A setting as it may be written: a key, a number and at least one delimiter. */
  datatype Item = Item(key: Key, number: string, gap: string)

  predicate Delimiters(t: string) {
    forall i :: 0 <= i < |t| ==> IsDelimiter(t[i])
  }

  /** The whole text is a number. */
  predicate Numeral(t: string, base: nat) {
    t != "" && Strtoul(t, 0, base).end == |t|
  }

  predicate ItemOk(item: Item) {
    Numeral(item.number, Base(item.key)) && item.gap != "" && Delimiters(item.gap)
  }

  function ItemText(item: Item): string {
    Name(item.key) + item.number + item.gap
  }

  function Text(items: seq<Item>): string {
    if items == [] then "" else ItemText(items[0]) + Text(items[1..])
  }

  function Apply(item: Item, s: Settings): Settings {
    Set(s, item.key, Strtoul(item.number, 0, Base(item.key)).value)
  }

  /** The settings updated by the items from left to right. */
  function Fold(items: seq<Item>, s: Settings): Settings {
    if items == [] then s else Fold(items[1..], Apply(items[0], s))
  }

  // ---------- reading in context

  lemma {:induction false} SkipReaches(t: string, p: nat, q: nat)
    requires p <= q <= |t| && forall i :: p <= i < q ==> IsDelimiter(t[i])
    ensures Skip(t, p) >= q && (q < |t| && !IsDelimiter(t[q]) ==> Skip(t, p) == q)
    decreases q - p
  {
    if p < q {
      SkipReaches(t, p + 1, q);
    }
  }

  lemma {:induction false} HereAt(t: string, p: nat, n: string, i: nat)
    requires Here(t, p, n) && i < |n|
    ensures t[p + i] == n[i]
  {
    assert t[p..p + |n|][i] == t[p + i];
  }

  lemma {:induction false} NumberAgrees(t: string, p: nat, n: string, i: nat, base: nat, acc: nat)
    requires Here(t, p, n) && i <= |n| && Number(n, i, base, acc).end == |n| && !DigitAt(t, p + |n|, base)
    ensures Number(t, p + i, base, acc) == Read(Number(n, i, base, acc).value, p + |n|)
    decreases |n| - i
  {
    if i < |n| {
      HereAt(t, p, n, i);
      NumberAgrees(t, p, n, i + 1, base, (acc * base + DigitOf(n[i])) % WORD);
    }
  }

  lemma {:induction false} StrtoulAgrees(t: string, p: nat, n: string, base: nat)
    requires Here(t, p, n) && Numeral(n, base) && p + |n| < |t| && IsDelimiter(t[p + |n|])
    ensures Strtoul(t, p, base) == Read(Strtoul(n, 0, base).value, p + |n|)
  {
    HereAt(t, p, n, 0);
    if base != 0 {
      NumberAgrees(t, p, n, 0, base, 0);
    } else if n[0] != '0' {
      NumberAgrees(t, p, n, 0, 10, 0);
    } else if 1 < |n| && n[1] == 'x' && DigitAt(n, 2, 16) {
      HereAt(t, p, n, 1);
      HereAt(t, p, n, 2);
      NumberAgrees(t, p, n, 2, 16, 0);
    } else {
      if |n| > 1 {
        HereAt(t, p, n, 1);
        assert DigitAt(n, 1, 8);
      }
      NumberAgrees(t, p, n, 1, 8, 0);
    }
  }

  lemma {:induction false} HereSplits(t: string, p: nat, a: string, b: string)
    requires Here(t, p, a + b)
    ensures Here(t, p, a) && Here(t, p + |a|, b)
  {
    var u := t[p..p + |a + b|];
    assert t[p..p + |a|] == u[..|a|] == a;
    assert t[p + |a|..p + |a| + |b|] == u[|a|..] == b;
  }

  lemma {:induction false} NameHere(t: string, p: nat, k: Key)
    requires Here(t, p, Name(k))
    ensures p < |t| && !IsDelimiter(t[p])
  {
    HereAt(t, p, Name(k), 0);
  }

  lemma {:induction false} KeyHere(t: string, p: nat, k: Key)
    requires Here(t, p, Name(k))
    ensures KeyAt(t, p) == Some(k)
  {
    var u := t[p..p + |Name(k)|];
    assert t[p] == u[0];
    forall j: Key | Here(t, p, Name(j))
      ensures j == k
    {
      assert t[p..p + |Name(j)|][0] == t[p];
    }
  }

  lemma {:induction false} FindItem(t: string, p: nat, q: nat, end: nat, k: Key, number: string, v: nat, e: nat)
    requires p <= q < end <= |t| && Skip(t, p) == q && e == v + |number| && v == q + |Name(k)|
    requires Here(t, q, Name(k)) && Here(t, v, number) && e < |t| && IsDelimiter(t[e]) && Numeral(number, Base(k))
    ensures Find(t, p, end) == Some(Found(k, Strtoul(number, 0, Base(k)).value, e))
  {
    StrtoulAgrees(t, v, number, Base(k));
    KeyHere(t, q, k);
    FindBy(t, p, q, end, k);
  }

  lemma {:induction false} FindBy(t: string, p: nat, q: nat, end: nat, k: Key)
    requires p <= |t| && Skip(t, p) == q < end && KeyAt(t, q) == Some(k)
    ensures var r := Strtoul(t, q + |Name(k)|, Base(k));
            Find(t, p, end) == if r.end == q + |Name(k)| then None else Some(Found(k, r.value, r.end))
  {
  }

  lemma {:induction false} ParseStep(t: string, p: nat, end: nat, s: Settings, f: Found)
    requires p <= |t| && Find(t, p, end) == Some(f)
    ensures Parse(t, p, end, s) == Parse(t, f.end, end, Set(s, f.key, f.value))
  {
  }

  lemma {:induction false} ParseDone(t: string, p: nat, end: nat, s: Settings)
    requires p <= |t| && end <= Skip(t, p)
    ensures Parse(t, p, end, s) == s
  {
  }

  lemma {:induction false} TextStarts(t: string, q: nat, item: Item, rest: string)
    requires Here(t, q, ItemText(item) + rest)
    ensures Here(t, q, Name(item.key)) && Here(t, q + |Name(item.key)|, item.number)
    ensures Here(t, q + |Name(item.key)| + |item.number|, item.gap) && Here(t, q + |ItemText(item)|, rest)
  {
    HereSplits(t, q, ItemText(item), rest);
    HereSplits(t, q, Name(item.key) + item.number, item.gap);
    HereSplits(t, q, Name(item.key), item.number);
  }

  predicate DelimitersFrom(t: string, p: nat, q: nat) {
    forall i :: p <= i < q && i < |t| ==> IsDelimiter(t[i])
  }

  lemma {:induction false} GapHere(t: string, p: nat, gap: string)
    requires Here(t, p, gap) && Delimiters(gap)
    ensures DelimitersFrom(t, p, p + |gap|)
  {
    forall i | p <= i < p + |gap| && i < |t|
      ensures IsDelimiter(t[i])
    {
      HereAt(t, p, gap, i - p);
    }
  }

  /** One item is read; e is the position behind its number. */
  lemma {:induction false} ParseItem(t: string, p: nat, q: nat, end: nat, item: Item, rest: string,
                                     s: Settings) returns (e: nat)
    requires p <= q < end && DelimitersFrom(t, p, q) && Here(t, q, ItemText(item) + rest) && ItemOk(item) && end <= |t|
    ensures e <= q + |ItemText(item)| && e <= |t| && DelimitersFrom(t, e, q + |ItemText(item)|)
    ensures Here(t, q + |ItemText(item)|, rest)
    ensures Parse(t, p, end, s) == Parse(t, e, end, Apply(item, s))
  {
    TextStarts(t, q, item, rest);
    NameHere(t, q, item.key);
    SkipReaches(t, p, q);
    e := q + |Name(item.key)| + |item.number|;
    HereAt(t, e, item.gap, 0);
    FindItem(t, p, q, end, item.key, item.number, q + |Name(item.key)|, e);
    ParseStep(t, p, end, s, Found(item.key, Strtoul(item.number, 0, Base(item.key)).value, e));
    GapHere(t, e, item.gap);
  }

  /** Parsing well-formed text stores the left-to-right update, whatever stands behind it in the buffer. */
  lemma {:induction false} ParseIsFold(t: string, p: nat, q: nat, end: nat, items: seq<Item>, s: Settings)
    requires p <= q && DelimitersFrom(t, p, q)
    requires Here(t, q, Text(items)) && end == q + |Text(items)|
    requires forall i :: 0 <= i < |items| ==> ItemOk(items[i])
    ensures Parse(t, p, end, s) == Fold(items, s)
    decreases |items|
  {
    if items == [] {
      SkipReaches(t, p, q);
      ParseDone(t, p, end, s);
    } else {
      var item, rest := items[0], items[1..];
      assert |ItemText(item)| > 0;
      var e := ParseItem(t, p, q, end, item, Text(rest), s);
      ParseIsFold(t, e, q + |ItemText(item)|, end, rest, Apply(item, s));
    }
  }

  /** Of several items with one key the last decides; the others leave it alone. */
  lemma {:induction false} LastDecides(items: seq<Item>, s: Settings, k: Key, i: nat)
    requires i < |items| && items[i].key == k && forall j :: i < j < |items| ==> items[j].key != k
    ensures Get(Fold(items, s), k) == Strtoul(items[i].number, 0, Base(k)).value
  {
    if i > 0 {
      LastDecides(items[1..], Apply(items[0], s), k, i - 1);
    } else {
      OthersLeave(items[1..], Apply(items[0], s), k);
    }
  }

  lemma {:induction false} OthersLeave(items: seq<Item>, s: Settings, k: Key)
    requires forall j :: 0 <= j < |items| ==> items[j].key != k
    ensures Get(Fold(items, s), k) == Get(s, k)
  {
    if items != [] {
      OthersLeave(items[1..], Apply(items[0], s), k);
    }
  }

  /** Whatever is written, the dumper function stays. */
  lemma {:induction false} DumperStays(t: string, p: nat, end: nat, s: Settings)
    requires p <= |t|
    ensures Parse(t, p, end, s).dumper == s.dumper
    decreases |t| - p
  {
    var f := Find(t, p, end);
    if f.Some? {
      DumperStays(t, f.value.end, end, Set(s, f.value.key, f.value.value));
    }
  }

  // ---------- what is printed

  function DigitChar(d: nat): (c: char)
    requires d < 10
    ensures DigitOf(c) == d && !IsDelimiter(c)
  {
    '0' + d as char
  }

  function Decimal(v: nat): (t: string)
    ensures t != ""
  {
    if v < 10 then [DigitChar(v)] else Decimal(v / 10) + [DigitChar(v % 10)]
  }

  lemma {:induction false} NumberSnoc(n: string, i: nat, c: char, base: nat, acc: nat)
    requires i <= |n| && DigitOf(c) < base <= 16 && Number(n, i, base, acc).end == |n|
    ensures Number(n + [c], i, base, acc) == Read((Number(n, i, base, acc).value * base + DigitOf(c)) % WORD, |n| + 1)
    decreases |n| - i
  {
    var m := n + [c];
    if i < |n| {
      assert m[i] == n[i];
      NumberSnoc(n, i + 1, c, base, (acc * base + DigitOf(n[i])) % WORD);
    } else {
      assert m[i] == c;
      assert Number(m, i + 1, base, (acc * base + DigitOf(c)) % WORD).end == |m|;
    }
  }

  /** One more digit. */
  lemma {:induction false} ReadsMore(t: string, i: nat, c: char, base: nat, w: nat, v: nat)
    requires i <= |t| && DigitOf(c) < base <= 16 && Number(t, i, base, 0) == Read(w, |t|)
    requires v == w * base + DigitOf(c) && v < WORD
    ensures Number(t + [c], i, base, 0) == Read(v, |t| + 1)
  {
    NumberSnoc(t, i, c, base, 0);
  }

  lemma {:induction false} DecimalReads(v: nat)
    requires v < WORD
    ensures Number(Decimal(v), 0, 10, 0) == Read(v, |Decimal(v)|)
    ensures v > 0 ==> Decimal(v)[0] != '0'
  {
    if v < 10 {
      assert Number(Decimal(v), 1, 10, v).end == 1;
    } else {
      DecimalReads(v / 10);
      ReadsMore(Decimal(v / 10), 0, DigitChar(v % 10), 10, v / 10, v);
    }
  }

  /** A printed number is read back, as decimal or with a base chosen by its prefix. */
  lemma {:induction false} PrintedReads(v: nat, base: nat)
    requires v < WORD && (base == 0 || base == 10)
    ensures Numeral(Decimal(v), base) && Strtoul(Decimal(v), 0, base).value == v
  {
    DecimalReads(v);
    if v == 0 {
      assert Decimal(v) == "0";
      assert Number("0", 1, 8, 0) == Read(0, 1);
    }
  }

  function HexChar(d: nat): (c: char)
    requires d < 16
    ensures DigitOf(c) == d
  {
    if d < 10 then DigitChar(d) else 'a' + (d - 10) as char
  }

  function Hex(v: nat): (t: string)
    ensures |t| > 2 && t[0] == '0' && t[1] == 'x' && DigitOf(t[2]) < 16
  {
    if v < 16 then ['0', 'x', HexChar(v)] else Hex(v / 16) + [HexChar(v % 16)]
  }

  lemma {:induction false} HexReads(v: nat)
    requires v < WORD
    ensures Number(Hex(v), 2, 16, 0) == Read(v, |Hex(v)|)
  {
    if v < 16 {
      var t := Hex(v);
      assert t[2] == HexChar(v);
      assert Number(t, 3, 16, v) == Read(v, 3);
    } else {
      HexReads(v / 16);
      ReadsMore(Hex(v / 16), 2, HexChar(v % 16), 16, v / 16, v);
    }
  }

  lemma {:induction false} NothingAt(t: string, p: nat, end: nat, s: Settings)
    requires p < end <= |t| && Skip(t, p) == p && KeyAt(t, p) == None
    ensures Parse(t, p, end, s) == s
  {
  }

  /** A key without a number ends the parsing and stores nothing. */
  lemma {:induction false} KeyAlone(t: string, p: nat, q: nat, end: nat, s: Settings, k: Key)
    requires p <= q < end <= |t| && DelimitersFrom(t, p, q) && Here(t, q, Name(k))
    requires q + |Name(k)| < |t| ==> DigitOf(t[q + |Name(k)|]) >= 10
    ensures Parse(t, p, end, s) == s
  {
    NameHere(t, q, k);
    SkipReaches(t, p, q);
    KeyHere(t, q, k);
    FindBy(t, p, q, end, k);
    assert Find(t, p, end) == None;
  }

  /** A limit may be written in hexadecimal, with its prefix. */
  lemma {:induction false} HexLimit(s: Settings, k: Key, v: nat, gap: string, junk: string)
    requires v < WORD && (k == OutLimit || k == InLimit) && gap != "" && Delimiters(gap)
    ensures var t := Name(k) + Hex(v) + gap; Parse(t + junk, 0, |t|, s) == Set(s, k, v)
  {
    var item := Item(k, Hex(v), gap);
    HexReads(v);
    assert Text([item]) == ItemText(item);
    assert Here(ItemText(item) + junk, 0, ItemText(item));
    ParseIsFold(ItemText(item) + junk, 0, 0, |ItemText(item)|, [item], s);
    assert Fold([item], s) == Apply(item, s);
  }

  lemma {:induction false} PrefixReads(t: string, p: nat)
    requires p + 1 < |t| && t[p] == '0' && t[p + 1] == 'x'
    ensures Strtoul(t, p, 10) == Read(0, p + 1) && Skip(t, p + 1) == p + 1 && KeyAt(t, p + 1) == None
  {
    assert Number(t, p + 1, 10, 0) == Read(0, p + 1);
    forall k: Key | Here(t, p + 1, Name(k))
      ensures false
    {
      HereAt(t, p + 1, Name(k), 0);
    }
  }

  /** A switch may not: only the prefix's zero is read, and nothing after it. */
  lemma {:induction false} HexSwitch(s: Settings, k: Key, v: nat, gap: string, junk: string)
    requires k == Enabled || k == Async
    ensures var t := Name(k) + Hex(v) + gap; Parse(t + junk, 0, |t|, s) == Set(s, k, 0)
  {
    var written, q := Name(k) + Hex(v) + gap, |Name(k)|;
    var t := written + junk;
    assert Here(t, 0, Name(k)) && t[q] == Hex(v)[0] && t[q + 1] == Hex(v)[1];
    NameHere(t, 0, k);
    KeyHere(t, 0, k);
    PrefixReads(t, q);
    FindBy(t, 0, 0, |written|, k);
    ParseStep(t, 0, |written|, s, Found(k, 0, q + 1));
    NothingAt(t, q + 1, |written|, Set(s, k, 0));
  }

  /** The printed values, and what follows them. */
  function Printed(s: Settings, ending: string): string {
    "Enabled:" + (Decimal(s.enabled) + (" " + ("Async:" + (Decimal(s.async) + (" " +
    ("OutLimit:" + (Decimal(s.outLimit) + (" " + ("InLimit:" + (Decimal(s.inLimit) + ending))))))))))
  }

  predicate InWord(s: Settings) {
    s.enabled < WORD && s.async < WORD && s.outLimit < WORD && s.inLimit < WORD
  }

  function Line(s: Settings, k: Key, gap: string): Item {
    Item(k, Decimal(Get(s, k)), gap)
  }

  lemma {:induction false} TextCons(k: Key, s: Settings, gap: string, rest: seq<Item>, now: Settings)
    requires InWord(s) && gap != "" && Delimiters(gap)
    ensures Text([Line(s, k, gap)] + rest) == Name(k) + (Decimal(Get(s, k)) + (gap + Text(rest)))
    ensures ItemOk(Line(s, k, gap))
    ensures Fold([Line(s, k, gap)] + rest, now) == Fold(rest, Set(now, k, Get(s, k)))
  {
    PrintedReads(Get(s, k), Base(k));
    assert ([Line(s, k, gap)] + rest)[1..] == rest;
    var a, b, c := Name(k), Decimal(Get(s, k)), Text(rest);
    assert a + b + gap + c == a + (b + (gap + c));
  }

  function Items(s: Settings): seq<Item> {
    [Line(s, Enabled, " ")] + ([Line(s, Async, " ")] + ([Line(s, OutLimit, " ")] + ([Line(s, InLimit, "\n")] + [])))
  }

  lemma {:induction false} PrintedIsText(s: Settings, now: Settings)
    requires InWord(s)
    ensures Text(Items(s)) == Printed(s, "\n") && Fold(Items(s), now) == s.(dumper := now.dumper)
    ensures forall i :: 0 <= i < |Items(s)| ==> ItemOk(Items(s)[i])
  {
    var d: seq<Item> := [];
    var c := [Line(s, InLimit, "\n")] + d;
    var b := [Line(s, OutLimit, " ")] + c;
    var a := [Line(s, Async, " ")] + b;
    var now1 := Set(now, Enabled, s.enabled);
    var now2 := Set(now1, Async, s.async);
    var now3 := Set(now2, OutLimit, s.outLimit);
    TextCons(Enabled, s, " ", a, now);
    TextCons(Async, s, " ", b, now1);
    TextCons(OutLimit, s, " ", c, now2);
    TextCons(InLimit, s, "\n", d, now3);
    assert "\n" + Text(d) == "\n";
  }

  /** Writing back the printed values and a newline restores the four of them and keeps the dumper,
      whatever stands behind them in the buffer. */
  lemma {:induction false} RoundTrip(s: Settings, now: Settings, junk: string)
    requires InWord(s)
    ensures Parse(Printed(s, "\n") + junk, 0, |Printed(s, "\n")|, now) == s.(dumper := now.dumper)
  {
    var u := Printed(s, "\n");
    PrintedIsText(s, now);
    assert (u + junk)[0..|u|] == u;
    ParseIsFold(u + junk, 0, 0, |u|, Items(s), now);
  }

  /** Ten digits at most, so that the printed values always fit the buffer. */
  lemma {:induction false} PrintedFits(s: Settings)
    requires InWord(s)
    ensures |Printed(s, "\n")| <= 75
  {
    DecimalLength(s.enabled, 10);
    DecimalLength(s.async, 10);
    DecimalLength(s.outLimit, 10);
    DecimalLength(s.inLimit, 10);
  }

  function Power10(k: nat): nat {
    if k == 0 then 1 else 10 * Power10(k - 1)
  }

  lemma {:induction false} DecimalLength(v: nat, k: nat)
    requires k > 0 && v < Power10(k)
    ensures |Decimal(v)| <= k
  {
    if v >= 10 {
      assert Power10(k) == 10 * Power10(k - 1);
      DecimalLength(v / 10, k - 1);
    }
  }

  /** Writing the printed settings and a newline to a device's file gives the device these settings, except that its
      dumper stays, and touches no other device. */
  method WriteBack(table: DeviceTable, device: nat, s: Settings, junk: string) returns (result: int)
    requires table.settings.Length == DEVICES && device < DEVICES && InWord(s)
    modifies table.settings
    ensures result == |Printed(s, "\n")|
    ensures table.settings[..] == old(table.settings[..])[device := s.(dumper := old(table.settings[device]).dumper)]
  {
    var text := Printed(s, "\n");
    PrintedFits(s);
    RoundTrip(s, table.settings[device], junk);
    assert text[..|text|] == text;
    result := table.Write(device, text, junk);
  }

  /** The whole printed line, though, is refused: its first word is no setting. */
  lemma {:induction false} WholeLineIsRefused(t: string, s: Settings)
    requires Here(t, 0, "SideDumper: ")
    ensures Parse(t, 0, |t|, s) == s
  {
    assert t[0] == t[0..12][0] == 'S';
    SkipReaches(t, 0, 0);
    forall k: Key
      ensures !Here(t, 0, Name(k))
    {
      assert |Name(k)| <= |t| ==> t[0..|Name(k)|][0] == 'S';
    }
  }
}
