/** What the boundary measures, unit by unit and field by field, and its limits as numbers. */
module SizeLaws {
  import opened Common
  import opened JsonText
  import opened SchemaSizes
  import Text

  // ── What a text weighs ──

  /** A unit of text in UTF-8: one to three bytes; a surrogate pair four. */
  lemma UnitWeights(u: Unit, v: Unit)
    ensures Weight([u]) == if u < 0x80 then 1 else if u < 0x800 then 2 else 3
    ensures 0xd800 <= u <= 0xdbff && 0xdc00 <= v <= 0xdfff ==> Weight([u, v]) == 4
  {
    WeightStep([u]);
    EmptyWeight();
    assert [u][1..] == [];
    if 0xd800 <= u <= 0xdbff && 0xdc00 <= v <= 0xdfff {
      WeightStep([u, v]);
      assert [u, v][2..] == [];
    }
  }

  /** The size of a text inside a JSON string: two bytes for the short escapes, six for the long ones, and a code point's own bytes for the rest. */
  ghost function Quoted(s: Utf16): nat {
    if s == [] then 0
    else if |s| >= 2 && 0xd800 <= s[0] <= 0xdbff && 0xdc00 <= s[1] <= 0xdfff then 4 + Quoted(s[2..])
    else
      (if s[0] in {0x08, 0x09, 0x0a, 0x0c, 0x0d, 0x22, 0x5c} then 2
       else if s[0] < 0x20 || 0xd800 <= s[0] <= 0xdfff then 6
       else if s[0] < 0x80 then 1
       else if s[0] < 0x800 then 2
       else 3) + Quoted(s[1..])
  }

  lemma EscapeFirstWeight(s: Utf16)
    requires s != []
    ensures Weight(EscapeFirst(s)) == Quoted(s) - Quoted(s[FirstUnits(s)..])
  {
    hide Weight;
    if StartsPaired(s) {
      UnitWeights(s[0], s[1]);
      assert s[..2] == [s[0], s[1]];
    } else {
      UnitWeights(s[0], 0);
      if Ascii(EscapeFirst(s)) { WeightOfAscii(EscapeFirst(s)); }
    }
  }

  lemma {:induction false} EscapeWeightIs(s: Utf16)
    ensures Weight(Escape(s)) == Quoted(s)
    decreases |s|
  {
    hide Weight, EscapeFirst, Quoted, Closed;
    if s == [] {
      EmptyWeight();
      NothingQuoted();
    } else {
      var n := FirstUnits(s);
      EscapeFirstWeight(s);
      EscapeWeightIs(s[n..]);
      WeightOfConcat(EscapeFirst(s), Escape(s[n..]));
    }
  }

  lemma NothingQuoted()
    ensures Quoted([]) == 0
  {}

  lemma QuoteWeightIs(s: Utf16)
    ensures Weight(Quote(s)) == 2 + Quoted(s) && Closed(Quote(s))
  {
    hide Weight, Escape, Quoted;
    EscapeWeightIs(s);
    EscapeIsClosed(s);
    QuoteWeight(s);
    WeightOfAscii([0x22]);
    WeightOfConcat([0x22], Escape(s));
    ClosedConcat([0x22], Escape(s));
    WeightOfConcat([0x22] + Escape(s), [0x22]);
  }

  // ── What an event weighs ──

  ghost function Sum(parts: seq<nat>): nat {
    if parts == [] then 0 else parts[0] + Sum(parts[1..])
  }

  function Commas(n: nat): nat { if n == 0 then 0 else n - 1 }

  /** Brackets, commas between the values, and the values in quotes. */
  ghost function TagSize(tag: seq<Utf16>): nat {
    2 + Commas(|tag|) + Sum(seq(|tag|, i requires 0 <= i < |tag| => 2 + Quoted(tag[i])))
  }

  ghost function TagsSize(tags: seq<seq<Utf16>>): nat {
    2 + Commas(|tags|) + Sum(seq(|tags|, i requires 0 <= i < |tags| => TagSize(tags[i])))
  }

  lemma {:induction false} WeightsAre(parts: seq<Utf16>, sizes: seq<nat>)
    requires |parts| == |sizes| && forall i :: 0 <= i < |parts| ==> Weight(parts[i]) == sizes[i]
    ensures Weights(parts) == Sum(sizes)
  {
    hide Weight;
    if parts != [] { WeightsAre(parts[1..], sizes[1..]); }
  }

  lemma TagWeightIs(tag: seq<Utf16>)
    ensures Closed(TagJson(tag)) && Weight(TagJson(tag)) == TagSize(tag)
  {
    hide Weight, Closed, Quote, Quoted;
    var parts := seq(|tag|, i requires 0 <= i < |tag| => Quote(tag[i]));
    var sizes := seq(|tag|, i requires 0 <= i < |tag| => 2 + Quoted(tag[i]));
    forall i | 0 <= i < |tag| ensures Closed(parts[i]) && Weight(parts[i]) == sizes[i] { QuoteWeightIs(tag[i]); }
    WeightsAre(parts, sizes);
    ArrayWeight(parts);
  }

  lemma TagsWeightIs(tags: seq<seq<Utf16>>)
    ensures Closed(TagsJson(tags)) && Weight(TagsJson(tags)) == TagsSize(tags)
  {
    hide Weight, Closed, TagJson, TagSize;
    var parts := seq(|tags|, i requires 0 <= i < |tags| => TagJson(tags[i]));
    var sizes := seq(|tags|, i requires 0 <= i < |tags| => TagSize(tags[i]));
    forall i | 0 <= i < |tags| ensures Closed(parts[i]) && Weight(parts[i]) == sizes[i] { TagWeightIs(tags[i]); }
    WeightsAre(parts, sizes);
    ArrayWeight(parts);
  }

  function DigitCount(n: nat): nat { if n < 10 then 1 else 1 + DigitCount(n / 10) }

  lemma {:induction false} DigitsAre(n: nat)
    ensures |Digits(n)| == DigitCount(n)
  {
    NumeralLength(n);
  }

  lemma {:induction false} NumeralLength(n: nat)
    ensures |Text.Numeral(n, 10)| == DigitCount(n)
  {
    if n >= 10 { NumeralLength(n / 10); }
  }

  /** The size of an event as JSON: its braces, keys, colons and commas, and what its fields hold. */
  ghost function EventSize(e: Event): nat {
    8 + DigitCount(e.kind) + 11 + 2 + Quoted(e.content) + 8 + TagsSize(e.tags)
    + (if e.createdAt.Some? then 14 + DigitCount(e.createdAt.value) else 0)
    + (if e.pubkey.Some? then 10 + 2 + Quoted(e.pubkey.value) else 0) + 1
  }

  /** What the limit of an event is compared with, byte for byte. */
  lemma EventWeightIs(e: Event)
    ensures |Utf8(EventJson(e))| == EventSize(e)
  {
    hide Weight, Quote, TagsJson, Head, Tail, Quoted, TagsSize, Units, Closed, DigitCount;
    var head, content, field, tags, tail := Head(e), Quote(e.content), Units(",\"tags\":"), TagsJson(e.tags), Tail(e);
    HeadWeight(e);
    QuoteWeightIs(e.content);
    TagsWeightIs(e.tags);
    TailWeight(e);
    WeightOfAscii(field);
    WeightOfConcat(head, content);
    ClosedConcat(head, content);
    WeightOfConcat(head + content, field);
    ClosedConcat(head + content, field);
    WeightOfConcat(head + content + field, tags);
    ClosedConcat(head + content + field, tags);
    WeightOfConcat(head + content + field + tags, tail);
    WeightIs(EventJson(e));
  }

  lemma WeightIs(s: Utf16)
    ensures Weight(s) == |Utf8(s)|
  {}

  lemma HeadWeight(e: Event)
    ensures Closed(Head(e)) && Weight(Head(e)) == 8 + DigitCount(e.kind) + 11
  {
    hide Units, Digits, Weight, DigitCount;
    var a, b, c := Units("{\"kind\":"), Digits(e.kind), Units(",\"content\":");
    AsciiConcat(a, b);
    AsciiConcat(a + b, c);
    WeightOfAscii(a + b + c);
    DigitsAre(e.kind);
  }

  lemma TailWeight(e: Event)
    ensures Weight(Tail(e)) ==
            (if e.createdAt.Some? then 14 + DigitCount(e.createdAt.value) else 0)
            + (if e.pubkey.Some? then 10 + 2 + Quoted(e.pubkey.value) else 0) + 1
  {
    hide Units, Digits, Weight, DigitCount, Quote, Quoted, Closed;
    var a: Utf16 := match e.createdAt case None => [] case Some(n) => Units(",\"created_at\":") + Digits(n);
    var b: Utf16 := match e.pubkey case None => [] case Some(p) => Units(",\"pubkey\":") + Quote(p);
    var c := Units("}");
    WeightOfAscii([]);
    WeightOfAscii(c);
    match e.createdAt {
      case None =>
      case Some(n) =>
        DigitsAre(n);
        AsciiConcat(Units(",\"created_at\":"), Digits(n));
        WeightOfAscii(Units(",\"created_at\":") + Digits(n));
    }
    match e.pubkey {
      case None =>
      case Some(p) =>
        WeightOfAscii(Units(",\"pubkey\":"));
        QuoteWeightIs(p);
        WeightOfConcat(Units(",\"pubkey\":"), Quote(p));
        ClosedConcat(Units(",\"pubkey\":"), Quote(p));
    }
    WeightOfConcat(a, b);
    ClosedConcat(a, b);
    WeightOfConcat(a + b, c);
  }

  // ── What is accepted ──

  predicate Key64(v: Value) {
    v.Word? && |v.text| == 64 && forall i :: 0 <= i < 64 ==> v.text[i] in {0x30, 0x31, 0x32, 0x33, 0x34, 0x35, 0x36, 0x37, 0x38, 0x39, 0x61, 0x62, 0x63, 0x64, 0x65, 0x66}
  }

  lemma HexUnits(u: Unit)
    ensures (0x30 <= u <= 0x39 || 0x61 <= u <= 0x66) <==>
            u in {0x30, 0x31, 0x32, 0x33, 0x34, 0x35, 0x36, 0x37, 0x38, 0x39, 0x61, 0x62, 0x63, 0x64, 0x65, 0x66}
  {}

  lemma Key64Is(v: Value)
    ensures IsPubkey(v) <==> Key64(v)
  {
    if v.Word? {
      forall i | 0 <= i < |v.text|
        ensures (0x30 <= v.text[i] <= 0x39 || 0x61 <= v.text[i] <= 0x66) <==>
                v.text[i] in {0x30, 0x31, 0x32, 0x33, 0x34, 0x35, 0x36, 0x37, 0x38, 0x39, 0x61, 0x62, 0x63, 0x64, 0x65, 0x66} {
        HexUnits(v.text[i]);
      }
    }
  }

  /** A template: a kind up to 65535, text, at most 10000 tags of 1 to 1024 texts each, and, where present, a safe time and a key in lowercase hex. */
  ghost predicate GoodTemplate(t: Template) {
    && t.kind.Whole? && 0 <= t.kind.number <= 65535
    && t.content.Word?
    && t.tags.List? && |t.tags.items| <= 10000
    && (forall i :: 0 <= i < |t.tags.items| ==>
          t.tags.items[i].List? && 1 <= |t.tags.items[i].items| <= 1024
          && forall k :: 0 <= k < |t.tags.items[i].items| ==> t.tags.items[i].items[k].Word?)
    && (t.createdAt != Absent ==> t.createdAt.Whole? && 0 <= t.createdAt.number <= 9007199254740991)
    && (t.pubkey != Absent ==> Key64(t.pubkey))
  }

  lemma TemplateIs(t: Template)
    ensures WellShaped(t) <==> GoodTemplate(t)
  {
    hide Key64, IsPubkey;
    Key64Is(t.pubkey);
  }

  /** The event read off a template: every field as given. */
  lemma EventIs(t: Template)
    requires WellShaped(t)
    ensures var e := EventOf(t);
            && e.kind == t.kind.number && e.content == t.content.text
            && |e.tags| == |t.tags.items|
            && (forall i :: 0 <= i < |e.tags| ==>
                  |e.tags[i]| == |t.tags.items[i].items| && forall k :: 0 <= k < |e.tags[i]| ==> e.tags[i][k] == t.tags.items[i].items[k].text)
            && (e.createdAt == if t.createdAt == Absent then None else Some(t.createdAt.number))
            && (e.pubkey == if t.pubkey == Absent then None else Some(t.pubkey.text))
  {
    hide IsPubkey;
  }

  ghost predicate Base64Then(t: Utf16, k: nat)
    requires k <= |t|
  {
    && (forall i :: 0 <= i < k ==> 0x41 <= t[i] <= 0x5a || 0x61 <= t[i] <= 0x7a || 0x30 <= t[i] <= 0x39 || t[i] in {0x2b, 0x2f})
    && (forall i :: k <= i < |t| ==> t[i] == 0x3d)
  }

  /** A recipient's key: 2092 characters of base64, padding at the end only. */
  ghost predicate KemKey(v: Value) {
    v.Word? && |v.text| == 2092 && exists k: nat :: 1 <= k <= |v.text| && Base64Then(v.text, k)
  }

  lemma KemKeyIs(o: Opts)
    ensures PqOpts(o) <==> o.Opts? && o.scheme == Word([0x70, 0x71]) && KemKey(o.recipientKemKey)
  {
    assert Units("pq") == [0x70, 0x71] by { assert "pq"[1..] == "q" && "q"[1..] == ""; }
    if o.Opts? && o.recipientKemKey.Word? {
      var t := o.recipientKemKey.text;
      forall k: nat | k <= |t| ensures PaddedAfter(t, k) <==> Base64Then(t, k) {}
      if k: nat :| 1 <= k <= |t| && PaddedAfter(t, k) { assert Base64Then(t, k); }
      if k: nat :| 1 <= k <= |t| && Base64Then(t, k) { assert PaddedAfter(t, k); }
    }
  }

  /** What each method takes, and how much of it: bytes of an event or a plaintext, characters of a ciphertext. */
  ghost predicate Takes(m: Method, p: Params, limit: int) {
    match m
    case GetPublicKey | GetRelays => true
    case SignPqAttestation => p.keys == 0
    case SignEvent => p.event.Some? && GoodTemplate(p.event.value) && (TemplateIs(p.event.value); EventSize(EventOf(p.event.value)) <= 1048576 && EventSize(EventOf(p.event.value)) <= limit)
    case Nip04Encrypt =>
      && Key64(p.pubkey) && p.plaintext.Word? && |Utf8(p.plaintext.text)| <= 65535 && |Utf8(p.plaintext.text)| <= limit && p.opts.NoOpts?
    case Nip44Encrypt =>
      && Key64(p.pubkey) && p.plaintext.Word? && |Utf8(p.plaintext.text)| <= 65535 && |Utf8(p.plaintext.text)| <= limit
      && (p.opts.NoOpts? || (p.opts.Opts? && p.opts.scheme == Word([0x70, 0x71]) && KemKey(p.opts.recipientKemKey)))
    case Nip04Decrypt | Nip44Decrypt => Key64(p.pubkey) && p.ciphertext.Word? && 1 <= |p.ciphertext.text| <= 131072 && |p.ciphertext.text| <= limit
  }

  /** A request alone, and in a batch that has `budget` left. */
  lemma ParamsTaken(m: Method, p: Params, budget: int)
    ensures SoundParams(m, p) && Within(m, p, Some(budget)) <==> Takes(m, p, budget)
    ensures SoundParams(m, p) && Within(m, p, None) <==> Takes(m, p, 1048576)
  {
    hide WellShaped, GoodTemplate, IsPubkey, Key64, PqOpts, KemKey, EventJson, EventSize;
    Key64Is(p.pubkey);
    KemKeyIs(p.opts);
    if p.event.Some? {
      TemplateIs(p.event.value);
      if WellShaped(p.event.value) { EventWeightIs(EventOf(p.event.value)); }
    }
  }

  /** What a batch is charged for it. */
  lemma ChargeIs(m: Method, p: Params)
    requires SoundParams(m, p)
    ensures Charge(m, p) ==
            match m
            case GetPublicKey | GetRelays | SignPqAttestation => 0
            case SignEvent => EventSize(EventOf(p.event.value))
            case Nip04Encrypt => |Utf8(p.plaintext.text)|
            case Nip44Encrypt => |Utf8(p.plaintext.text)| + if p.opts.Opts? then 2092 else 0
            case Nip04Decrypt | Nip44Decrypt => |p.ciphertext.text|
  {
    hide WellShaped, EventJson, EventSize;
    if m.SignEvent? { EventWeightIs(EventOf(p.event.value)); }
  }

  /** What the items before are charged. */
  ghost function Spent(items: seq<Item>): nat {
    if items == [] then 0 else Spent(items[..|items| - 1]) + ItemCharge(items[|items| - 1])
  }

  lemma {:induction false} SpentIs(items: seq<Item>)
    ensures Total(items) == Spent(items)
  {
    hide ItemCharge;
    if items != [] { SpentIs(items[..|items| - 1]); }
  }

  /** A batch: 1 to 64 items with ids of 1 to 256 characters, no two alike, none a plain read, each within what is left of 1048576. */
  lemma BatchIs(items: seq<Item>)
    ensures Acceptable(items) <==>
            && 1 <= |items| <= 64
            && (forall k: nat :: k < |items| ==> FitsSo(items, k))
            && (forall i, j :: 0 <= i < j < |items| && items[i].Item? && items[j].Item? ==> items[i].id != items[j].id)
  {
    hide SoundParams, Takes, Within, Spent, Total, FitsAt;
    forall k: nat | k < |items| ensures FitsAt(items, k) <==> FitsSo(items, k) { FitsIs(items, k); }
    if forall k: nat :: k < |items| ==> FitsAt(items, k) {
      forall k: nat | k < |items| ensures FitsSo(items, k) { assert FitsAt(items, k); }
    }
    if forall k: nat :: k < |items| ==> FitsSo(items, k) {
      forall k: nat | k < |items| ensures FitsAt(items, k) { assert FitsSo(items, k); }
    }
  }

  /** An item with an id, a method that needs the key, and params within what is left. */
  ghost predicate FitsSo(items: seq<Item>, k: nat)
    requires k < |items|
  {
    && items[k].Item? && items[k].id.Word? && 1 <= |items[k].id.text| <= 256
    && items[k].call.Some? && items[k].call.value !in {GetPublicKey, GetRelays}
    && items[k].params.Some? && Takes(items[k].call.value, items[k].params.value, 1048576 - Spent(items[..k]))
  }

  lemma FitsIs(items: seq<Item>, k: nat)
    requires k < |items|
    ensures FitsAt(items, k) <==> FitsSo(items, k)
  {
    hide SoundParams, Takes, Within, Spent, Total;
    SpentIs(items[..k]);
    if items[k].Item? && items[k].call.Some? && items[k].params.Some? {
      ParamsTaken(items[k].call.value, items[k].params.value, 1048576 - Spent(items[..k]));
    }
  }
}
