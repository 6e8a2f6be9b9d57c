/** The size limits at the signer's boundary: early cut-offs against the exact measure, and the batch budget. */
module SchemaSizes {
  import opened Common
  import opened JsonText
  import Text

  const MAX_KIND := 65535
  const MAX_SAFE_INTEGER := 9007199254740991
  const MAX_REQUEST_ID_LENGTH := 256
  const MAX_EVENT_BYTES := 1048576
  const MAX_EVENT_TAGS := 10000
  const MAX_TAG_VALUES := 1024
  const MAX_CRYPTO_PLAINTEXT_BYTES := 65535
  const MAX_CRYPTO_CIPHERTEXT_LENGTH := 131072
  const RECIPIENT_KEM_KEY_LENGTH := 2092
  const MAX_BATCH_ITEMS := 64
  const MAX_BATCH_BYTES := MAX_EVENT_BYTES

  /** An untrusted value, as far as the checks look into it. */
  datatype Value = Absent | Word(text: Utf16) | Whole(number: int) | List(items: seq<Value>) | Other

  /** The fields of an untrusted template; `None` in its place is a value that is no object. */
  datatype Template = Template(kind: Value, content: Value, tags: Value, createdAt: Value, pubkey: Value)

  datatype Event = Event(
    kind: nat, content: Utf16, tags: seq<seq<Utf16>>, createdAt: Option<nat>, pubkey: Option<Utf16>)

  // ── The event as JSON ──

  function Digits(n: nat): (t: Utf16)
    ensures Ascii(t)
  {
    var s := Text.Numeral(n, 10);
    assert forall i :: 0 <= i < |s| ==> s[i] in s;
    Units(s)
  }

  function Joined(parts: seq<Utf16>): Utf16 {
    if parts == [] then []
    else if |parts| == 1 then parts[0]
    else parts[0] + [0x2c] + Joined(parts[1..])
  }

  function ArrayJson(parts: seq<Utf16>): Utf16 { [0x5b] + Joined(parts) + [0x5d] }

  function TagJson(tag: seq<Utf16>): Utf16 { ArrayJson(seq(|tag|, i requires 0 <= i < |tag| => Quote(tag[i]))) }

  function TagsJson(tags: seq<seq<Utf16>>): Utf16 {
    ArrayJson(seq(|tags|, i requires 0 <= i < |tags| => TagJson(tags[i])))
  }

  function Head(event: Event): Utf16 { Units("{\"kind\":") + Digits(event.kind) + Units(",\"content\":") }

  function Tail(event: Event): Utf16 {
    (match event.createdAt case None => [] case Some(n) => Units(",\"created_at\":") + Digits(n))
    + (match event.pubkey case None => [] case Some(p) => Units(",\"pubkey\":") + Quote(p))
    + Units("}")
  }

  /** `JSON.stringify(event)`: the fields in the order they were assigned, no white space. */
  function EventJson(event: Event): Utf16 {
    Head(event) + Quote(event.content) + Units(",\"tags\":") + TagsJson(event.tags) + Tail(event)
  }

  // ── What the checks demand ──

  predicate WholeWithin(v: Value, max: nat) { v.Whole? && 0 <= v.number <= max }

  predicate IsPubkey(v: Value) {
    && v.Word?
    && |v.text| == 64
    && forall i :: 0 <= i < 64 ==> 0x30 <= v.text[i] <= 0x39 || 0x61 <= v.text[i] <= 0x66
  }

  predicate WellTag(v: Value) {
    v.List? && 1 <= |v.items| <= MAX_TAG_VALUES && forall i :: 0 <= i < |v.items| ==> v.items[i].Word?
  }

  /** Everything a template must be, sizes in bytes apart. */
  predicate WellShaped(t: Template) {
    && WholeWithin(t.kind, MAX_KIND)
    && t.content.Word?
    && t.tags.List? && |t.tags.items| <= MAX_EVENT_TAGS
    && (forall i :: 0 <= i < |t.tags.items| ==> WellTag(t.tags.items[i]))
    && (t.createdAt.Absent? || WholeWithin(t.createdAt, MAX_SAFE_INTEGER))
    && (t.pubkey.Absent? || IsPubkey(t.pubkey))
  }

  function TagOf(v: Value): seq<Utf16>
    requires WellTag(v)
  {
    seq(|v.items|, i requires 0 <= i < |v.items| => v.items[i].text)
  }

  function TagsOf(items: seq<Value>): (tags: seq<seq<Utf16>>)
    requires forall i :: 0 <= i < |items| ==> WellTag(items[i])
  {
    seq(|items|, i requires 0 <= i < |items| => TagOf(items[i]))
  }

  function EventOf(t: Template): Event
    requires WellShaped(t)
  {
    Event(
      t.kind.number, t.content.text, TagsOf(t.tags.items),
      if t.createdAt.Absent? then None else Some(t.createdAt.number),
      if t.pubkey.Absent? then None else Some(t.pubkey.text))
  }

  // ── The running tag count ──

  function Lengths(entries: seq<Value>): nat {
    if entries == [] then 0
    else (if entries[0].Word? then |entries[0].text| else 0) + Lengths(entries[1..])
  }

  /** Brackets, then quotes and a comma per value, then the values themselves. */
  function TagCount(v: Value): nat {
    if v.List? then 2 + 3 * |v.items| + Lengths(v.items) else 0
  }

  function TagsCount(items: seq<Value>): nat {
    if items == [] then 0 else TagCount(items[0]) + TagsCount(items[1..])
  }

  ghost function Weights(parts: seq<Utf16>): nat {
    if parts == [] then 0 else Weight(parts[0]) + Weights(parts[1..])
  }

  lemma {:induction false} JoinedWeight(parts: seq<Utf16>)
    requires forall i :: 0 <= i < |parts| ==> Closed(parts[i])
    ensures Closed(Joined(parts))
    ensures Weight(Joined(parts)) == Weights(parts) + (if parts == [] then 0 else |parts| - 1)
  {
    hide Weight, Closed;
    WeightOfAscii([]);
    if |parts| == 1 {
      assert parts[1..] == [];
    } else if parts != [] {
      JoinedWeight(parts[1..]);
      WeightOfAscii([0x2c]);
      ClosedConcat(parts[0], [0x2c]);
      WeightOfConcat(parts[0], [0x2c]);
      ClosedConcat(parts[0] + [0x2c], Joined(parts[1..]));
      WeightOfConcat(parts[0] + [0x2c], Joined(parts[1..]));
    }
  }

  lemma ClosedConcat(a: Utf16, b: Utf16)
    requires Closed(a) && Closed(b)
    ensures Closed(a + b)
  {
    if b == [] { assert a + b == a; }
  }

  lemma ArrayWeight(parts: seq<Utf16>)
    requires forall i :: 0 <= i < |parts| ==> Closed(parts[i])
    ensures Closed(ArrayJson(parts))
    ensures Weight(ArrayJson(parts)) == 2 + Weights(parts) + (if parts == [] then 0 else |parts| - 1)
  {
    hide Weight, Closed;
    JoinedWeight(parts);
    WeightOfAscii([0x5b]);
    WeightOfAscii([0x5d]);
    ClosedConcat([0x5b], Joined(parts));
    WeightOfConcat([0x5b], Joined(parts));
    ClosedConcat([0x5b] + Joined(parts), [0x5d]);
    WeightOfConcat([0x5b] + Joined(parts), [0x5d]);
  }

  lemma {:induction false} QuotedWeights(entries: seq<Value>, parts: seq<Utf16>)
    requires |parts| == |entries|
    requires forall i :: 0 <= i < |entries| ==> entries[i].Word? && parts[i] == Quote(entries[i].text)
    ensures Weights(parts) >= 2 * |entries| + Lengths(entries)
    ensures forall i :: 0 <= i < |parts| ==> Closed(parts[i])
  {
    if entries != [] {
      QuoteWeight(entries[0].text);
      QuotedWeights(entries[1..], parts[1..]);
    }
  }

  lemma TagWeight(v: Value)
    requires WellTag(v)
    ensures Closed(TagJson(TagOf(v))) && Weight(TagJson(TagOf(v))) + 1 >= TagCount(v)
  {
    hide Weight, Closed, Quote;
    var tag := TagOf(v);
    var parts := seq(|tag|, i requires 0 <= i < |tag| => Quote(tag[i]));
    QuotedWeights(v.items, parts);
    ArrayWeight(parts);
  }

  lemma {:induction false} TagWeights(items: seq<Value>, parts: seq<Utf16>)
    requires |parts| == |items|
    requires forall i :: 0 <= i < |items| ==> WellTag(items[i]) && parts[i] == TagJson(TagOf(items[i]))
    ensures Weights(parts) + |items| >= TagsCount(items)
    ensures forall i :: 0 <= i < |parts| ==> Closed(parts[i])
  {
    hide Weight, Closed, WellTag, TagJson, TagOf, TagCount;
    if items != [] {
      TagWeight(items[0]);
      TagWeights(items[1..], parts[1..]);
    }
  }

  /** The running count never exceeds what the tags weigh as JSON. */
  lemma TagCountIsLower(items: seq<Value>)
    requires forall i :: 0 <= i < |items| ==> WellTag(items[i])
    ensures Closed(TagsJson(TagsOf(items))) && TagsCount(items) < Weight(TagsJson(TagsOf(items)))
  {
    hide Weight, Closed, WellTag, TagJson, TagOf;
    var tags := TagsOf(items);
    var parts := seq(|tags|, i requires 0 <= i < |tags| => TagJson(tags[i]));
    TagWeights(items, parts);
    ArrayWeight(parts);
  }

  /** A piece of a text weighs no more than the text. */
  lemma PieceWeight(a: Utf16, b: Utf16, c: Utf16)
    requires Closed(a) && Closed(b)
    ensures Weight(a + b + c) >= Weight(b) && Closed(a + b)
  {
    WeightOfConcat(a, b);
    ClosedConcat(a, b);
    WeightOfConcat(a + b, c);
  }

  lemma AsciiConcat(a: Utf16, b: Utf16)
    requires Ascii(a) && Ascii(b)
    ensures Ascii(a + b)
  {
  }

  lemma HeadIsClosed(event: Event)
    ensures Closed(Head(event))
  {
    hide Units, Digits, Weight;
    var a, b, c := Units("{\"kind\":"), Digits(event.kind), Units(",\"content\":");
    AsciiConcat(a, b);
    AsciiConcat(a + b, c);
    WeightOfAscii(a + b + c);
  }

  /** Neither cut-off can fire on a template whose JSON is within the limit. */
  lemma CutOffsAreSafe(t: Template)
    requires WellShaped(t)
    ensures |t.content.text| < Weight(EventJson(EventOf(t)))
    ensures TagsCount(t.tags.items) < Weight(EventJson(EventOf(t)))
  {
    hide Weight, Closed, Quote, TagsJson, TagsOf, Head, Tail, WellTag, Units;
    var event := EventOf(t);
    var head, content, field, tags, tail :=
      Head(event), Quote(event.content), Units(",\"tags\":"), TagsJson(event.tags), Tail(event);
    HeadIsClosed(event);
    QuoteWeight(event.content);
    TagCountIsLower(t.tags.items);
    WeightOfAscii(field);
    PieceWeight(head, content, field + tags + tail);
    assert head + content + (field + tags + tail) == EventJson(event);
    ClosedConcat(head + content, field);
    PieceWeight(head + content + field, tags, tail);
  }

  // ── validateTemplate ──

  datatype Verdict = Accepted(event: Event, bytes: nat) | Invalid | TooLarge

  /**
   * The cut-offs change nothing: a well-shaped template is accepted exactly when the UTF-8 form of
   * its JSON is within the limit, and refused as too large otherwise.
   */
  method ValidateTemplate(value: Option<Template>, limit: int) returns (r: Verdict)
    ensures r.Accepted? <==>
            value.Some? && WellShaped(value.value) && |Utf8(EventJson(EventOf(value.value)))| <= limit
    ensures r.Accepted? ==> r.event == EventOf(value.value) && r.bytes == |Utf8(EventJson(r.event))|
    ensures value.Some? && WellShaped(value.value) ==> !r.Invalid?
  {
    hide EventJson, TagOf, EventOf;
    if value.None? { return Invalid; }
    var t := value.value;
    if !WholeWithin(t.kind, MAX_KIND) { return Invalid; }
    if !t.content.Word? { return Invalid; }
    CutOffs(t);
    if |t.content.text| > limit { return TooLarge; }
    if !t.tags.List? { return Invalid; }
    var raw := t.tags.items;
    if |raw| > MAX_EVENT_TAGS { return Invalid; }
    var tagBytes := 0;
    var index := 0;
    assert raw[0..] == raw;
    while index < |raw|
      invariant 0 <= index <= |raw|
      invariant forall i :: 0 <= i < index ==> WellTag(raw[i])
      invariant tagBytes + TagsCount(raw[index..]) == TagsCount(raw)
    {
      var tag := raw[index];
      assert raw[index..][1..] == raw[index + 1..];
      if !tag.List? || |tag.items| == 0 { return Invalid; }
      if |tag.items| > MAX_TAG_VALUES { return Invalid; }
      tagBytes := tagBytes + (2 + |tag.items| * 3);
      if tagBytes > limit { return TooLarge; }
      var entry := 0;
      assert tag.items[0..] == tag.items;
      while entry < |tag.items|
        invariant 0 <= entry <= |tag.items|
        invariant forall i :: 0 <= i < entry ==> tag.items[i].Word?
        invariant tagBytes + Lengths(tag.items[entry..]) + TagsCount(raw[index + 1..]) == TagsCount(raw)
      {
        assert tag.items[entry..][1..] == tag.items[entry + 1..];
        if !tag.items[entry].Word? { return Invalid; }
        tagBytes := tagBytes + |tag.items[entry].text|;
        if tagBytes > limit { return TooLarge; }
        entry := entry + 1;
      }
      index := index + 1;
    }
    var event := Event(t.kind.number, t.content.text, TagsOf(raw), None, None);
    if t.createdAt != Absent {
      if !WholeWithin(t.createdAt, MAX_SAFE_INTEGER) { return Invalid; }
      event := event.(createdAt := Some(t.createdAt.number));
    }
    if t.pubkey != Absent {
      if !IsPubkey(t.pubkey) { return Invalid; }
      event := event.(pubkey := Some(t.pubkey.text));
    }
    EventBuilt(t, event);
    var bytes := Utf8ByteLength(EventJson(event));
    if bytes > limit { return TooLarge; }
    return Accepted(event, bytes);
  }

  lemma EventBuilt(t: Template, event: Event)
    requires WellShaped(t)
    requires event.kind == t.kind.number && event.content == t.content.text && event.tags == TagsOf(t.tags.items)
    requires event.createdAt == if t.createdAt.Absent? then None else Some(t.createdAt.number)
    requires event.pubkey == if t.pubkey.Absent? then None else Some(t.pubkey.text)
    ensures event == EventOf(t)
  {}

  lemma CutOffs(t: Template)
    ensures WellShaped(t) ==>
              && |t.content.text| < |Utf8(EventJson(EventOf(t)))|
              && TagsCount(t.tags.items) < |Utf8(EventJson(EventOf(t)))|
  {
    if WellShaped(t) { CutOffsAreSafe(t); }
  }

  // ── validateParams ──

  datatype Method =
    GetPublicKey | GetRelays | SignEvent | Nip04Encrypt | Nip04Decrypt | Nip44Encrypt | Nip44Decrypt | SignPqAttestation

  /** The methods a batch may hold. */
  predicate KeyMethod(m: Method) { !m.GetPublicKey? && !m.GetRelays? }

  datatype Opts = NoOpts | NotAnObject | Opts(scheme: Value, recipientKemKey: Value)

  /** The fields of untrusted params; `keys` counts the own fields of the object. */
  datatype Params = Params(
    event: Option<Template>, pubkey: Value, plaintext: Value, ciphertext: Value, opts: Opts, keys: nat)

  predicate Base64Unit(u: Unit) {
    0x41 <= u <= 0x5a || 0x61 <= u <= 0x7a || 0x30 <= u <= 0x39 || u == 0x2b || u == 0x2f
  }

  /** `k` base64 characters, then only padding. */
  predicate PaddedAfter(t: Utf16, k: nat)
    requires k <= |t|
  {
    (forall i :: 0 <= i < k ==> Base64Unit(t[i])) && forall i :: k <= i < |t| ==> t[i] == 0x3d
  }

  /** One or more base64 characters, padding at the end only. */
  predicate Base64(t: Utf16) {
    exists k: nat :: 1 <= k <= |t| && PaddedAfter(t, k)
  }

  predicate PqOpts(o: Opts) {
    && o.Opts?
    && o.scheme == Word(Units("pq"))
    && o.recipientKemKey.Word?
    && |o.recipientKemKey.text| == RECIPIENT_KEM_KEY_LENGTH
    && Base64(o.recipientKemKey.text)
  }

  /** Everything the params must be, sizes apart. */
  predicate SoundParams(m: Method, p: Params) {
    match m
    case GetPublicKey | GetRelays => true
    case SignPqAttestation => p.keys == 0
    case SignEvent => p.event.Some? && WellShaped(p.event.value)
    case Nip04Encrypt => IsPubkey(p.pubkey) && p.plaintext.Word? && p.opts.NoOpts?
    case Nip44Encrypt => IsPubkey(p.pubkey) && p.plaintext.Word? && (p.opts.NoOpts? || PqOpts(p.opts))
    case Nip04Decrypt | Nip44Decrypt => IsPubkey(p.pubkey) && p.ciphertext.Word? && p.ciphertext.text != []
  }

  /** The method's own limit; three methods carry nothing to measure. */
  function OwnLimit(m: Method): Option<nat> {
    match m
    case GetPublicKey | GetRelays | SignPqAttestation => None
    case SignEvent => Some(MAX_EVENT_BYTES)
    case Nip04Encrypt | Nip44Encrypt => Some(MAX_CRYPTO_PLAINTEXT_BYTES)
    case Nip04Decrypt | Nip44Decrypt => Some(MAX_CRYPTO_CIPHERTEXT_LENGTH)
  }

  /** What the limit is compared with. */
  function Measure(m: Method, p: Params): nat
    requires SoundParams(m, p)
  {
    match m
    case GetPublicKey | GetRelays | SignPqAttestation => 0
    case SignEvent => |Utf8(EventJson(EventOf(p.event.value)))|
    case Nip04Encrypt | Nip44Encrypt => |Utf8(p.plaintext.text)|
    case Nip04Decrypt | Nip44Decrypt => |p.ciphertext.text|
  }

  predicate PostQuantum(m: Method, p: Params) { m.Nip44Encrypt? && p.opts.Opts? }

  /** What a batch is charged: the measure, and the recipient's key on top. */
  function Charge(m: Method, p: Params): nat
    requires SoundParams(m, p)
  {
    Measure(m, p) + if PostQuantum(m, p) then RECIPIENT_KEM_KEY_LENGTH else 0
  }

  /** The measure is within the method's own limit and, in a batch, within what is left. */
  predicate Within(m: Method, p: Params, budget: Option<int>)
    requires SoundParams(m, p)
  {
    OwnLimit(m).Some? ==>
      Measure(m, p) <= OwnLimit(m).value && (budget.Some? ==> Measure(m, p) <= budget.value)
  }

  /** `Math.min(own, budget)`, an absent budget being infinite. */
  function LimitOf(own: nat, budget: Option<int>): int {
    if budget.Some? && budget.value < own then budget.value else own
  }

  method ValidateEncryptScheme(opts: Opts) returns (ok: bool, pq: bool)
    ensures ok <==> opts.NoOpts? || PqOpts(opts)
    ensures ok ==> (pq <==> opts.Opts?)
  {
    match opts
    case NoOpts => return true, false;
    case NotAnObject => return false, false;
    case Opts(scheme, key) =>
      if scheme != Word(Units("pq")) { return false, false; }
      if !key.Word? { return false, false; }
      if |key.text| != RECIPIENT_KEM_KEY_LENGTH { return false, false; }
      if !Base64(key.text) { return false, false; }
      return true, true;
  }

  /** The charge of sound params within their limits; nothing for any others. */
  method ValidateParams(m: Method, p: Params, budget: Option<int>) returns (charged: Option<nat>)
    ensures charged.Some? <==> SoundParams(m, p) && Within(m, p, budget)
    ensures charged.Some? ==> charged.value == Charge(m, p)
  {
    hide EventJson, WellShaped, IsPubkey, PqOpts;
    if m.GetPublicKey? || m.GetRelays? {
      return Some(0);
    } else if m.SignPqAttestation? {
      if p.keys > 0 { return None; }
      return Some(0);
    } else if m.SignEvent? {
      var limit := LimitOf(MAX_EVENT_BYTES, budget);
      var r := ValidateTemplate(p.event, limit);
      if !r.Accepted? { return None; }
      return Some(r.bytes);
    } else if m.Nip04Encrypt? || m.Nip44Encrypt? {
      if !IsPubkey(p.pubkey) { return None; }
      if !p.plaintext.Word? { return None; }
      var limit := LimitOf(MAX_CRYPTO_PLAINTEXT_BYTES, budget);
      WeightAtLeastLength(p.plaintext.text);
      if |p.plaintext.text| > limit { return None; }
      var bytes := Utf8ByteLength(p.plaintext.text);
      if bytes > limit { return None; }
      if m.Nip04Encrypt? {
        if !p.opts.NoOpts? { return None; }
        return Some(bytes);
      }
      var ok, pq := ValidateEncryptScheme(p.opts);
      if !ok { return None; }
      return Some(if pq then bytes + RECIPIENT_KEM_KEY_LENGTH else bytes);
    } else {
      if !IsPubkey(p.pubkey) { return None; }
      if !p.ciphertext.Word? || p.ciphertext.text == [] { return None; }
      var limit := LimitOf(MAX_CRYPTO_CIPHERTEXT_LENGTH, budget);
      if |p.ciphertext.text| > limit { return None; }
      return Some(|p.ciphertext.text|);
    }
  }

  // ── The batch loop ──

  /** One entry of `items`; `None` stands for a method outside the wire methods, or params that are no object. */
  datatype Item = NotAnItem | Item(id: Value, call: Option<Method>, params: Option<Params>)

  predicate SoundItem(item: Item) {
    && item.Item?
    && item.id.Word? && 1 <= |item.id.text| <= MAX_REQUEST_ID_LENGTH
    && item.call.Some? && KeyMethod(item.call.value)
    && item.params.Some? && SoundParams(item.call.value, item.params.value)
  }

  function ItemCharge(item: Item): nat {
    if SoundItem(item) then Charge(item.call.value, item.params.value) else 0
  }

  /** What the items of a batch are charged together. */
  function Total(items: seq<Item>): nat {
    if items == [] then 0 else Total(items[..|items| - 1]) + ItemCharge(items[|items| - 1])
  }

  /** Item `k` is sound, and its measure fits its own limit and what the items before it have left. */
  predicate FitsAt(items: seq<Item>, k: nat)
    requires k < |items|
  {
    && SoundItem(items[k])
    && Within(items[k].call.value, items[k].params.value, Some(MAX_BATCH_BYTES - Total(items[..k])))
  }

  predicate DistinctIds(items: seq<Item>, n: nat)
    requires n <= |items|
  {
    forall i, j :: 0 <= i < j < n && items[i].Item? && items[j].Item? ==> items[i].id != items[j].id
  }

  predicate Acceptable(items: seq<Item>) {
    && 1 <= |items| <= MAX_BATCH_ITEMS
    && (forall k: nat :: k < |items| ==> FitsAt(items, k))
    && DistinctIds(items, |items|)
  }

  lemma NothingCharged(items: seq<Item>)
    requires items == []
    ensures Total(items) == 0
  {}

  lemma TotalStep(items: seq<Item>, k: nat)
    requires k < |items|
    ensures Total(items[..k + 1]) == Total(items[..k]) + ItemCharge(items[k])
  {
    assert items[..k + 1][..k] == items[..k];
  }

  /** A batch is accepted exactly when every item fits what the items before it left. */
  method ValidateBatch(items: seq<Item>) returns (accepted: bool, remaining: int)
    ensures accepted <==> Acceptable(items)
    ensures accepted ==> remaining == MAX_BATCH_BYTES - Total(items)
  {
    hide Charge, SoundParams, Within, Total;
    remaining := MAX_BATCH_BYTES;
    if |items| == 0 { return false, remaining; }
    if |items| > MAX_BATCH_ITEMS { return false, remaining; }
    var seen: set<Value> := {};
    var index := 0;
    NothingCharged(items[..0]);
    while index < |items|
      invariant 0 <= index <= |items|
      invariant forall k: nat :: k < index ==> FitsAt(items, k)
      invariant seen == set k: nat | k < index && items[k].Item? :: items[k].id
      invariant DistinctIds(items, index)
      invariant remaining == MAX_BATCH_BYTES - Total(items[..index])
    {
      var raw := items[index];
      if !raw.Item? { assert !FitsAt(items, index); return false, remaining; }
      if !raw.id.Word? || |raw.id.text| == 0 || |raw.id.text| > MAX_REQUEST_ID_LENGTH {
        assert !FitsAt(items, index);
        return false, remaining;
      }
      if raw.id in seen { return false, remaining; }
      seen := seen + {raw.id};
      if raw.call.None? || !KeyMethod(raw.call.value) || raw.params.None? {
        assert !FitsAt(items, index);
        return false, remaining;
      }
      var charged := ValidateParams(raw.call.value, raw.params.value, Some(remaining));
      if charged.None? { assert !FitsAt(items, index); return false, remaining; }
      assert FitsAt(items, index);
      TotalStep(items, index);
      remaining := remaining - charged.value;
      index := index + 1;
    }
    assert items[..|items|] == items;
    return true, remaining;
  }

  // ── How far a batch can go ──

  predicate CarriesKey(item: Item) {
    item.Item? && item.call.Some? && item.params.Some? && PostQuantum(item.call.value, item.params.value)
  }

  lemma ChargeFits(items: seq<Item>, k: nat)
    requires k < |items| && FitsAt(items, k)
    ensures ItemCharge(items[k]) == 0
         || Total(items[..k + 1]) <= MAX_BATCH_BYTES + (if CarriesKey(items[k]) then RECIPIENT_KEM_KEY_LENGTH else 0)
  {
    TotalStep(items, k);
  }

  /** Past the budget, the last charge was for a recipient's key, its measure having fitted. */
  lemma {:induction false} OvershootIsOneKey(items: seq<Item>, n: nat)
    requires n <= |items| && forall k: nat :: k < n ==> FitsAt(items, k)
    requires Total(items[..n]) > MAX_BATCH_BYTES
    ensures exists k: nat :: k < n && CarriesKey(items[k])
                          && Total(items[..n]) == Total(items[..k]) + ItemCharge(items[k])
                          && Total(items[..k]) + ItemCharge(items[k]) - RECIPIENT_KEM_KEY_LENGTH <= MAX_BATCH_BYTES
  {
    TotalStep(items, n - 1);
    if ItemCharge(items[n - 1]) == 0 {
      OvershootIsOneKey(items, n - 1);
    } else {
      ChargeFits(items, n - 1);
    }
  }

  /** An accepted batch charges at most one key more than the budget. */
  lemma AcceptedBatchIsBounded(items: seq<Item>)
    requires Acceptable(items)
    ensures Total(items) <= MAX_BATCH_BYTES + RECIPIENT_KEM_KEY_LENGTH
    ensures (forall k :: 0 <= k < |items| ==> !CarriesKey(items[k])) ==> Total(items) <= MAX_BATCH_BYTES
  {
    hide Total, ItemCharge, FitsAt, CarriesKey, DistinctIds;
    assert items[..|items|] == items;
    if Total(items) > MAX_BATCH_BYTES {
      OvershootIsOneKey(items, |items|);
    }
  }

  lemma {:induction false} TotalGrows(items: seq<Item>, k: nat, n: nat)
    requires k <= n <= |items|
    ensures Total(items[..k]) <= Total(items[..n])
  {
    hide Total, ItemCharge;
    if k < n {
      TotalGrows(items, k, n - 1);
      TotalStep(items, n - 1);
    }
  }

  /** And it stays within the budget if and only if every recipient's key still fitted when it was charged. */
  lemma WithinBudgetExactly(items: seq<Item>)
    requires Acceptable(items)
    ensures Total(items) <= MAX_BATCH_BYTES <==>
            forall k: nat :: k < |items| && CarriesKey(items[k]) ==> Total(items[..k]) + ItemCharge(items[k]) <= MAX_BATCH_BYTES
  {
    hide Total, ItemCharge, FitsAt, CarriesKey, DistinctIds;
    assert items[..|items|] == items;
    if Total(items) > MAX_BATCH_BYTES {
      OvershootIsOneKey(items, |items|);
    } else {
      forall k: nat | k < |items| ensures Total(items[..k]) + ItemCharge(items[k]) <= MAX_BATCH_BYTES {
        TotalStep(items, k);
        TotalGrows(items, k + 1, |items|);
      }
    }
  }

  // ── The overshoot is real ──

  /** `n` letters `a`: hexadecimal, base64 and one byte each. */
  function Letters(n: nat): Utf16 { seq(n, i => 0x61) }

  function Encrypt(id: nat, length: nat, opts: Opts): Item {
    Item(
      Word(Letters(id + 1)), Some(Nip44Encrypt),
      Some(Params(None, Word(Letters(64)), Word(Letters(length)), Absent, opts, 2)))
  }

  function KeyOpts(): Opts { Opts(Word(Units("pq")), Word(Letters(RECIPIENT_KEM_KEY_LENGTH))) }

  /** Sixteen plaintexts of the greatest size, and one post-quantum plaintext in what is left. */
  function FullBatch(): seq<Item> {
    seq(17, i requires 0 <= i < 17 => FullItem(i))
  }

  function FullItem(i: nat): Item { if i < 16 then Encrypt(i, 65535, NoOpts) else Encrypt(i, 16, KeyOpts()) }

  lemma EncryptCharge(id: nat, length: nat, opts: Opts)
    requires id < 17 && length <= 65535 && (opts == NoOpts || opts == KeyOpts())
    ensures SoundItem(Encrypt(id, length, opts))
    ensures ItemCharge(Encrypt(id, length, opts)) == length + (if opts == NoOpts then 0 else RECIPIENT_KEM_KEY_LENGTH)
    ensures Measure(Nip44Encrypt, Encrypt(id, length, opts).params.value) == length
  {
    WeightOfAscii(Letters(length));
    var key := Letters(RECIPIENT_KEM_KEY_LENGTH);
    assert PaddedAfter(key, |key|);
  }

  lemma {:induction false} FullPrefix(k: nat)
    requires k <= 16
    ensures Total(FullBatch()[..k]) == 65535 * k
  {
    hide Encrypt, ItemCharge;
    if k > 0 {
      FullPrefix(k - 1);
      TotalStep(FullBatch(), k - 1);
      EncryptCharge(k - 1, 65535, NoOpts);
    }
  }

  lemma FullIdsDiffer()
    ensures DistinctIds(FullBatch(), 17)
  {
    var items := FullBatch();
    forall i, j | 0 <= i < j < 17 ensures FullItem(i).id != FullItem(j).id {
      assert |Letters(i + 1)| != |Letters(j + 1)|;
    }
    assert forall i :: 0 <= i < 17 ==> items[i] == FullItem(i);
  }

  /** The bound is reached: the key is charged after the check, so it can go wholly past the budget. */
  lemma OvershootIsReached()
    ensures Acceptable(FullBatch()) && Total(FullBatch()) == MAX_BATCH_BYTES + RECIPIENT_KEM_KEY_LENGTH
  {
    hide ItemCharge, Total, SoundItem, Measure;
    var items := FullBatch();
    forall k: nat | k < 17 ensures FitsAt(items, k) {
      FullPrefix(if k < 16 then k else 16);
      EncryptCharge(k, if k < 16 then 65535 else 16, if k < 16 then NoOpts else KeyOpts());
    }
    assert DistinctIds(items, 17) by { FullIdsDiffer(); }
    FullPrefix(16);
    TotalStep(items, 16);
    EncryptCharge(16, 16, KeyOpts());
    assert items[..17] == items;
  }
}
