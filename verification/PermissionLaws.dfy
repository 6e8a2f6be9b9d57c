/**
 * Which stored rule answers which request, spelt out: the keys a request is governed by, which of them
 * wins, and the layers of the tree they are read from.
 */
module PermissionLaws {
  import opened Common
  import opened Text
  import opened PermissionKey
  import opened PermissionStore
  import opened PermissionMigration
  import opened PermissionJournal
  import opened Origin
  import opened OriginLaws

  // ── The keys ──

  /** The decimal text of an event kind. */
  function Decimal(n: int): string {
    if n < 0 then "-" + Numeral(-n, 10) else Numeral(n, 10)
  }

  /** The keys that govern a request: its own name, the wildcard, and at most one more. */
  ghost predicate Governs(key: string, method_: string, kind: Kind) {
    || key == method_ || key == "*"
    || (key == "sendMessages" && (method_ == "nip04Encrypt" || method_ == "nip44Encrypt"))
    || (key == "sendMessages" && method_ == "signEvent" && kind in {Integer(4), Integer(13), Integer(14), Integer(1059)})
    || (key == "readMessages" && (method_ == "nip04Decrypt" || method_ == "nip44Decrypt"))
    || (method_ == "signEvent" && kind.Integer? && kind.n !in {4, 13, 14, 1059} && key == "signEvent:" + Decimal(kind.n))
  }

  /** The wildcard is the broadest, a key for more than the one method the narrowest. */
  function Breadth(key: string, method_: string): nat {
    if key == "*" then 2 else if key == method_ then 1 else 0
  }

  lemma Consults(method_: string, kind: Kind, key: string)
    ensures key in ConsultedKeys(method_, kind) <==> Governs(key, method_, kind)
  {
    hide Numeral;
    var keys := ConsultedKeys(method_, kind);
    assert keys[0] in keys && keys[1] in keys && (|keys| == 3 ==> keys[2] in keys);
    assert forall k :: k in keys <==> k == keys[0] || k == keys[1] || (|keys| == 3 && k == keys[2]);
    Prefixes(method_);
    if method_ == "signEvent" && kind.Integer? {
      assert |"signEvent:" + Decimal(kind.n)| > |method_|;
      assert IntText(kind.n) == Decimal(kind.n);
    }
  }

  lemma Prefixes(method_: string)
    ensures "webln_" <= method_ ==> method_[0] == 'w'
    ensures method_ in {"signEvent", "nip04Encrypt", "nip44Encrypt", "nip04Decrypt", "nip44Decrypt"} ==> method_[0] != 'w'
  {}

  lemma {:induction false} FirstDeniedIs(b: Bucket, keys: seq<string>)
    ensures FirstDenied(b, keys).None? ==> forall i :: 0 <= i < |keys| ==> !(keys[i] in b && b[keys[i]] == Deny)
    ensures FirstDenied(b, keys).Some? ==>
              exists i :: 0 <= i < |keys| && FirstDenied(b, keys) == Some(keys[i]) && keys[i] in b && b[keys[i]] == Deny
                          && forall j :: 0 <= j < i ==> !(keys[j] in b && b[keys[j]] == Deny)
  {
    if keys != [] {
      var rest := keys[1..];
      FirstDeniedIs(b, rest);
      if keys[0] in b && b[keys[0]] == Deny {
        assert FirstDenied(b, keys) == Some(keys[0]);
      } else if FirstDenied(b, rest).None? {
        forall i | 0 <= i < |keys| ensures !(keys[i] in b && b[keys[i]] == Deny) { if i > 0 { assert keys[i] == rest[i - 1]; } }
      } else {
        var i :| 0 <= i < |rest| && FirstDenied(b, rest) == Some(rest[i]) && rest[i] in b && b[rest[i]] == Deny
                 && forall j :: 0 <= j < i ==> !(rest[j] in b && b[rest[j]] == Deny);
        assert keys[i + 1] == rest[i];
        forall j | 0 <= j < i + 1 ensures !(keys[j] in b && b[keys[j]] == Deny) { if j > 0 { assert keys[j] == rest[j - 1]; } }
      }
    }
  }

  /** `key` is stored, governs the request, and no narrower governing key is stored; among the denials only, if so asked. */
  ghost predicate Narrowest(b: Bucket, method_: string, kind: Kind, denials: bool, key: string) {
    && key in b && (denials ==> b[key] == Deny) && Governs(key, method_, kind)
    && forall k :: k in b && (denials ==> b[k] == Deny) && Governs(k, method_, kind) ==> Breadth(key, method_) <= Breadth(k, method_)
  }

  /**
   * Every answer. Any governing deny wins, and the narrowest one is reported. Otherwise a `signEvent`
   * that names no integer kind, or kind 22242, is asked about, and anything else is answered by the
   * narrowest governing key, or asked about when there is none.
   */
  lemma EveryAnswer(b: Bucket, method_: string, kind: Kind, key: string)
    ensures Resolve(b, method_, kind) == Answer(Deny, Some(key)) <==> Narrowest(b, method_, kind, true, key)
    ensures Resolve(b, method_, kind).decision == Deny <==> exists k :: k in b && b[k] == Deny && Governs(k, method_, kind)
    ensures (method_ == "signEvent" && kind in {NotInteger, Integer(22242)}) && Resolve(b, method_, kind).decision != Deny ==>
              Resolve(b, method_, kind) == Answer(Ask, None)
    ensures !(method_ == "signEvent" && kind in {NotInteger, Integer(22242)}) && Resolve(b, method_, kind).decision != Deny ==>
              && (Narrowest(b, method_, kind, false, key) ==> Resolve(b, method_, kind) == Answer(b[key], Some(key)))
              && ((forall k :: k in b ==> !Governs(k, method_, kind)) ==> Resolve(b, method_, kind) == Answer(Ask, None))
  {
    hide Governs, ConsultedKeys, FirstDenied, FirstSet, Breadth;
    var keys := ConsultedKeys(method_, kind);
    FirstDeniedIs(b, keys);
    forall k ensures k in keys <==> Governs(k, method_, kind) { Consults(method_, kind, k); }
    NarrowestDenied(b, method_, kind, key);
    if FirstSet(b, keys).Some? {
      NarrowestSet(b, method_, kind, key);
      SetIsConsulted(b, keys);
    } else {
      NoneSet(b, keys);
      assert forall k :: k in b ==> k !in keys;
    }
    if k :| k in b && b[k] == Deny && Governs(k, method_, kind) {
      var i :| 0 <= i < |keys| && keys[i] == k;
    }
  }

  /** Of two consulted keys the narrower comes first. */
  lemma InOrder(method_: string, kind: Kind)
    ensures var keys := ConsultedKeys(method_, kind);
            forall i, j :: 0 <= i < |keys| && 0 <= j < |keys| ==>
              (keys[i] == keys[j] <==> Breadth(keys[i], method_) == Breadth(keys[j], method_))
              && (Breadth(keys[i], method_) < Breadth(keys[j], method_) ==> i < j)
  {
    hide Numeral;
  }

  lemma NarrowestDenied(b: Bucket, method_: string, kind: Kind, key: string)
    ensures FirstDenied(b, ConsultedKeys(method_, kind)) == Some(key) <==> Narrowest(b, method_, kind, true, key)
  {
    hide Governs, ConsultedKeys, FirstDenied, Breadth;
    var keys := ConsultedKeys(method_, kind);
    FirstDeniedIs(b, keys);
    InOrder(method_, kind);
    forall k ensures k in keys <==> Governs(k, method_, kind) { Consults(method_, kind, k); }
    if FirstDenied(b, keys).Some? {
      var i :| 0 <= i < |keys| && FirstDenied(b, keys) == Some(keys[i]) && keys[i] in b && b[keys[i]] == Deny
               && forall j :: 0 <= j < i ==> !(keys[j] in b && b[keys[j]] == Deny);
      forall k | k in b && b[k] == Deny && Governs(k, method_, kind) ensures Breadth(keys[i], method_) <= Breadth(k, method_) {
        var j :| 0 <= j < |keys| && keys[j] == k;
        assert j >= i;
      }
      if Narrowest(b, method_, kind, true, key) {
        var j :| 0 <= j < |keys| && keys[j] == key;
        assert Breadth(keys[i], method_) == Breadth(keys[j], method_);
      }
    }
  }

  lemma NarrowestSet(b: Bucket, method_: string, kind: Kind, key: string)
    requires FirstSet(b, ConsultedKeys(method_, kind)).Some?
    ensures FirstSet(b, ConsultedKeys(method_, kind)) == Some(key) <==> Narrowest(b, method_, kind, false, key)
  {
    hide Governs, ConsultedKeys, FirstSet, Breadth;
    var keys := ConsultedKeys(method_, kind);
    SetIsConsulted(b, keys);
    InOrder(method_, kind);
    forall k ensures k in keys <==> Governs(k, method_, kind) { Consults(method_, kind, k); }
    var i :| 0 <= i < |keys| && keys[i] == FirstSet(b, keys).value && forall j :: 0 <= j < i ==> keys[j] !in b;
    forall k | k in b && Governs(k, method_, kind) ensures Breadth(keys[i], method_) <= Breadth(k, method_) {
      var j :| 0 <= j < |keys| && keys[j] == k;
      assert j >= i;
    }
    if Narrowest(b, method_, kind, false, key) {
      var j :| 0 <= j < |keys| && keys[j] == key;
      assert Breadth(keys[i], method_) == Breadth(keys[j], method_);
    }
  }

  /** One stored rule: it denies what it governs, and allows that except a `signEvent` of kind 22242 or of no integer kind. */
  lemma OneRule(key: string, d: Decision, method_: string, kind: Kind)
    ensures Resolve(map[key := d], method_, kind).decision ==
            if !Governs(key, method_, kind) then Ask
            else if d == Allow && method_ == "signEvent" && kind in {NotInteger, Integer(22242)} then Ask
            else d
  {
    hide Governs, Resolve;
    var b: Bucket := map[key := d];
    EveryAnswer(b, method_, kind, key);
    assert Governs(key, method_, kind) ==> Narrowest(b, method_, kind, false, key);
  }

  /** An allow to send messages: the two encrypt methods, and signing the four kinds of message events. */
  lemma SendMessagesAlone(method_: string, kind: Kind)
    ensures Resolve(map["sendMessages" := Allow], method_, kind).decision == Allow <==>
            || method_ in {"nip04Encrypt", "nip44Encrypt", "sendMessages"}
            || (method_ == "signEvent" && kind in {Integer(4), Integer(13), Integer(14), Integer(1059)})
  {
    hide Resolve;
    OneRule("sendMessages", Allow, method_, kind);
    KeysApart(kind);
  }

  /** An allow to read messages: the two decrypt methods. */
  lemma ReadMessagesAlone(method_: string, kind: Kind)
    ensures Resolve(map["readMessages" := Allow], method_, kind).decision == Allow <==>
            method_ in {"nip04Decrypt", "nip44Decrypt", "readMessages"}
  {
    hide Resolve;
    OneRule("readMessages", Allow, method_, kind);
    KeysApart(kind);
  }

  lemma KeysApart(kind: Kind)
    ensures kind.Integer? ==> "signEvent:" + Decimal(kind.n) !in {"sendMessages", "readMessages", "signEvent", "*"}
  {
    if kind.Integer? {
      var key := "signEvent:" + Decimal(kind.n);
      assert key[9] == ':' && key[1] == 'i' && |key| > 9;
    }
  }

  /** An allow to sign one kind: that kind alone, and neither a message kind nor 22242; also a method that has the key's own name. */
  lemma SignKindAlone(n: int, method_: string, kind: Kind)
    ensures Resolve(map["signEvent:" + Decimal(n) := Allow], method_, kind).decision == Allow <==>
            || (method_ == "signEvent" && kind == Integer(n) && n !in {4, 13, 14, 1059, 22242})
            || method_ == "signEvent:" + Decimal(n)
  {
    hide Resolve;
    var key := "signEvent:" + Decimal(n);
    OneRule(key, Allow, method_, kind);
    KeysApart(Integer(n));
    if kind.Integer? {
      assert key[10..] == Decimal(n) && ("signEvent:" + Decimal(kind.n))[10..] == Decimal(kind.n);
      DecimalTellsApart(n, kind.n);
    }
  }

  lemma DecimalTellsApart(m: int, n: int)
    ensures Decimal(m) == Decimal(n) <==> m == n
  {
    hide Numeral, Number;
    if m < 0 { NumberOfNumeral(-m, 10); assert Decimal(m)[1..] == Numeral(-m, 10); } else { NumberOfNumeral(m, 10); NoSign(m); }
    if n < 0 { NumberOfNumeral(-n, 10); assert Decimal(n)[1..] == Numeral(-n, 10); } else { NumberOfNumeral(n, 10); NoSign(n); }
  }

  lemma NoSign(n: nat)
    ensures Numeral(n, 10)[0] != '-'
  {
    hide Numeral;
    assert Numeral(n, 10)[0] in Numeral(n, 10);
  }

  /** An allow for `signEvent` in general: every integer kind but 22242. An allow for everything: all but that and a kind not named. */
  lemma BroadRulesAlone(method_: string, kind: Kind)
    ensures Resolve(map["signEvent" := Allow], method_, kind).decision == Allow <==>
            method_ == "signEvent" && kind !in {NotInteger, Integer(22242)}
    ensures Resolve(map["*" := Allow], method_, kind).decision == Allow <==>
            !(method_ == "signEvent" && kind in {NotInteger, Integer(22242)})
  {
    hide Resolve;
    OneRule("signEvent", Allow, method_, kind);
    OneRule("*", Allow, method_, kind);
    KeysApart(kind);
  }

  /** No bucket allows a relay credential, or a signature of a kind nobody named. */
  lemma NeverAllowed(b: Bucket)
    ensures Resolve(b, "signEvent", Integer(22242)).decision != Allow
    ensures Resolve(b, "signEvent", NotInteger).decision != Allow
  {
    hide Resolve, Governs;
    EveryAnswer(b, "signEvent", Integer(22242), "");
    EveryAnswer(b, "signEvent", NotInteger, "");
  }

  // ── The layers ──

  /** A place in the tree: a label and an account. */
  datatype Layer = Layer(scope: string, id: string)

  ghost predicate Holds(tree: Tree, l: Layer, key: string) {
    l.scope in tree && l.id in tree[l.scope] && key in tree[l.scope][l.id]
  }

  /** What the first of the layers that holds the key says about it. */
  ghost function FirstOf(tree: Tree, layers: seq<Layer>, key: string): Option<Decision> {
    if layers == [] then None
    else if Holds(tree, layers[0], key) then Some(tree[layers[0].scope][layers[0].id][key])
    else FirstOf(tree, layers[1..], key)
  }

  /** `b` is the bucket the layers make, the first of them that holds a key deciding it. */
  ghost predicate Laid(tree: Tree, layers: seq<Layer>, b: Bucket) {
    forall k :: (if k in b then Some(b[k]) else None) == FirstOf(tree, layers, k)
  }

  lemma LaidTells(tree: Tree, layers: seq<Layer>, a: Bucket, b: Bucket)
    requires Laid(tree, layers, a) && Laid(tree, layers, b)
    ensures a == b
  {
    hide FirstOf;
    forall k ensures k in a <==> k in b ensures k in a ==> a[k] == b[k] {
      assert (if k in a then Some(a[k]) else None) == FirstOf(tree, layers, k) == if k in b then Some(b[k]) else None;
    }
  }

  lemma NoLayer(tree: Tree)
    ensures Laid(tree, [], map[])
  {}

  lemma OneMore(tree: Tree, layers: seq<Layer>, i: nat, below: Bucket)
    requires i < |layers| && Laid(tree, layers[i + 1..], below)
    ensures Laid(tree, layers[i..], below + At(tree, layers[i].scope, layers[i].id))
  {
    var b := below + At(tree, layers[i].scope, layers[i].id);
    forall k ensures (if k in b then Some(b[k]) else None) == FirstOf(tree, layers[i..], k) {
      assert layers[i..][1..] == layers[i + 1..];
      assert (if k in below then Some(below[k]) else None) == FirstOf(tree, layers[i + 1..], k);
    }
  }

  /** The layers of an origin with a host of its own, the first deciding, and those of any other label. */
  function OriginLayers(origin: string, host: string, id: string): seq<Layer> {
    [Layer(origin, id), Layer(host, id), Layer(origin, "_default"), Layer(host, "_default"), Layer("_global", id), Layer("_global", "_default")]
  }

  function LabelLayers(label_: string, id: string): seq<Layer> {
    [Layer(label_, id), Layer(label_, "_default"), Layer("_global", id), Layer("_global", "_default")]
  }

  /**
   * The effective rules of an account at an origin: the account's for the origin, its for the host, the
   * shared ones for the origin and for the host, and the global ones.
   */
  lemma EffectiveLayers(tree: Tree, origin: string, host: string, id: string)
    requires SiteScopes(origin) == [origin, host]
    ensures Laid(tree, OriginLayers(origin, host, id), Effective(tree, origin, id))
  {
    hide SiteScopes, Laid, At, FirstOf;
    GlobalBuckets(tree, id);
    var all := OriginLayers(origin, host, id);
    var gd, gi, hd, od := At(tree, "_global", "_default"), At(tree, "_global", id), At(tree, host, "_default"), At(tree, origin, "_default");
    var hi, oi := At(tree, host, id), At(tree, origin, id);
    NoLayer(tree);
    assert all[6..] == [] && all[0..] == all;
    OneMore(tree, all, 5, map[]);
    OneMore(tree, all, 4, map[] + gd);
    OneMore(tree, all, 3, map[] + gd + gi);
    OneMore(tree, all, 2, map[] + gd + gi + hd);
    OneMore(tree, all, 1, map[] + gd + gi + hd + od);
    OneMore(tree, all, 0, map[] + gd + gi + hd + od + hi);
    SixLayers(gd, gi, hd, od, hi, oi);
    assert Effective(tree, origin, id) == (((gd + gi) + (hd + od)) + (hi + oi));
  }

  lemma OwnLayers(tree: Tree, origin: string, host: string, id: string)
    requires SiteScopes(origin) == [origin, host]
    ensures Laid(tree, [Layer(origin, id), Layer(host, id)], OriginBucket(tree, origin, id))
  {
    hide SiteScopes, Laid, At, FirstOf;
    var own := [Layer(origin, id), Layer(host, id)];
    var hi, oi := At(tree, host, id), At(tree, origin, id);
    NoLayer(tree);
    assert own[2..] == [] && own[0..] == own;
    OneMore(tree, own, 1, map[]);
    OneMore(tree, own, 0, map[] + hi);
    assert map[] + hi + oi == hi + oi;
  }

  lemma GlobalBuckets(tree: Tree, id: string)
    ensures At(tree, GLOBAL, DEFAULT) == At(tree, "_global", "_default") && At(tree, GLOBAL, id) == At(tree, "_global", id)
  {}

  lemma SixLayers(gd: Bucket, gi: Bucket, hd: Bucket, od: Bucket, hi: Bucket, oi: Bucket)
    ensures map[] + gd + gi + hd + od + hi + oi == (((gd + gi) + (hd + od)) + (hi + oi))
  {
    LayerAssociates(gd + gi, hd, od);
    LayerAssociates(gd + gi + hd + od, hi, oi);
    assert map[] + gd == gd;
  }

  /** A label that is no origin: the account's rules for it, the shared ones for it, and the global ones. */
  lemma LabelEffective(tree: Tree, label_: string, id: string)
    requires SiteScopes(label_) == [label_]
    ensures Laid(tree, LabelLayers(label_, id), Effective(tree, label_, id))
    ensures Laid(tree, [Layer(label_, id)], OriginBucket(tree, label_, id))
  {
    hide SiteScopes, Laid, At, FirstOf;
    GlobalBuckets(tree, id);
    var all := LabelLayers(label_, id);
    var gd, gi, ld, li := At(tree, "_global", "_default"), At(tree, "_global", id), At(tree, label_, "_default"), At(tree, label_, id);
    NoLayer(tree);
    assert all[4..] == [] && all[0..] == all;
    OneMore(tree, all, 3, map[]);
    OneMore(tree, all, 2, map[] + gd);
    OneMore(tree, all, 1, map[] + gd + gi);
    OneMore(tree, all, 0, map[] + gd + gi + ld);
    FourLayers(gd, gi, ld, li);
    var own := [Layer(label_, id)];
    assert own[1..] == [] && own[0..] == own;
    OneMore(tree, own, 0, map[]);
  }

  lemma FourLayers(gd: Bucket, gi: Bucket, ld: Bucket, li: Bucket)
    ensures map[] + gd + gi + ld + li == ((gd + gi) + (map[] + ld)) + (map[] + li)
  {
    assert map[] + gd == gd && map[] + ld == ld && map[] + li == li;
  }

  // ── What a check reads ──

  /** The layers a check reads, by the mode of the store: inherited, shared by all accounts, or the account's own. */
  ghost function LayersRead(st: Stored, origin: string, host: string, account: string): seq<Layer> {
    if st.inherits then OriginLayers(origin, host, account)
    else if st.shared then [Layer(origin, "_default"), Layer(host, "_default")]
    else [Layer(origin, account), Layer(host, account)]
  }

  ghost function LabelLayersRead(st: Stored, label_: string, account: string): seq<Layer> {
    if st.inherits then LabelLayers(label_, account)
    else if st.shared then [Layer(label_, "_default")]
    else [Layer(label_, account)]
  }

  /**
   * A check at an https origin, its default port written out or not: outside the shared mode a caller
   * without an account is asked about; otherwise the journal refuses it, or the mode's layers answer.
   */
  lemma OriginCheck(st: Stored, host: Host, port: string, method_: string, kind: Kind, account: string, b: Bucket)
    requires GoodHost(host) && (port == "" || port == ":443")
    requires Laid(st.tree, LayersRead(st, "https://" + HostText(host), HostText(host), account), b)
    ensures Check(st, "https://" + HostText(host) + port, method_, kind, account) ==
            if account == "" && (st.inherits || !st.shared) then Says(Answer(Ask, None))
            else if st.pending.Some? then Throws
            else Says(Resolve(b, method_, kind))
  {
    hide Resolve, HostText, GoodHost, SiteScopes, Effective, OriginBucket, Laid, FirstOf, OriginLayers;
    var origin, written := "https://" + HostText(host), "https://" + HostText(host) + port;
    HttpsLabels(host, port);
    NothingStoredAsks(method_, kind);
    EffectiveByLabels(st.tree, origin, written, account);
    EffectiveByLabels(st.tree, origin, written, DEFAULT);
    EffectiveLayers(st.tree, origin, HostText(host), account);
    OwnLayers(st.tree, origin, HostText(host), account);
    OwnLayers(st.tree, origin, HostText(host), DEFAULT);
    var read := if st.inherits then Effective(st.tree, origin, account) else OriginBucket(st.tree, origin, if st.shared then DEFAULT else account);
    LaidTells(st.tree, LayersRead(st, origin, HostText(host), account), b, read);
  }

  lemma HttpsLabels(host: Host, port: string)
    requires GoodHost(host) && (port == "" || port == ":443")
    ensures SiteScopes("https://" + HostText(host) + port) == ["https://" + HostText(host), HostText(host)]
    ensures SiteScopes("https://" + HostText(host)) == ["https://" + HostText(host), HostText(host)]
  {
    hide HostText, GoodHost, SiteScopes, Numeral;
    OriginLabels("https", host, 443, 443);
    DefaultNumerals();
    Glued();
    var h := HostText(host);
    assert "https" + "://" + h == "https://" + h;
    assert "https://" + h + ":" + "443" == "https://" + h + ":443" && "https://" + h + "" == "https://" + h;
  }

  lemma EffectiveByLabels(tree: Tree, a: string, b: string, id: string)
    requires SiteScopes(a) == SiteScopes(b)
    ensures Effective(tree, a, id) == Effective(tree, b, id) && OriginBucket(tree, a, id) == OriginBucket(tree, b, id)
  {
    hide SiteScopes, At;
  }

  /** The same for a caller that is no web page: a label without a colon, or a relay's origin. */
  lemma LabelCheck(st: Stored, label_: string, method_: string, kind: Kind, account: string, b: Bucket)
    requires (forall i :: 0 <= i < |label_| ==> label_[i] != ':') || "wss:" <= label_ || "ws:" <= label_
    requires Laid(st.tree, LabelLayersRead(st, label_, account), b)
    ensures Check(st, label_, method_, kind, account) ==
            if account == "" && (st.inherits || !st.shared) then Says(Answer(Ask, None))
            else if st.pending.Some? then Throws
            else Says(Resolve(b, method_, kind))
  {
    hide Resolve, SiteScopes, Effective, OriginBucket, Laid, FirstOf, LabelLayers;
    PlainLabels(label_);
    NothingStoredAsks(method_, kind);
    LabelEffective(st.tree, label_, account);
    LabelEffective(st.tree, label_, DEFAULT);
    var read := if st.inherits then Effective(st.tree, label_, account) else OriginBucket(st.tree, label_, if st.shared then DEFAULT else account);
    LaidTells(st.tree, LabelLayersRead(st, label_, account), b, read);
  }

  lemma PlainLabels(label_: string)
    requires (forall i :: 0 <= i < |label_| ==> label_[i] != ':') || "wss:" <= label_ || "ws:" <= label_
    ensures SiteScopes(label_) == [label_]
  {
    hide SiteScopes;
    if "wss:" <= label_ {
      assert label_ == "wss" + ":" + label_[4..];
      RelayLabel("wss", label_[4..]);
    } else if "ws:" <= label_ {
      assert label_ == "ws" + ":" + label_[3..];
      RelayLabel("ws", label_[3..]);
    } else {
      NoColonNoOrigin(label_);
    }
  }

  // ── What the migrations leave behind ──

  /**
   * The shared rules after consolidating: every key some label shared, an existing global rule as it was,
   * otherwise a denial if any label denied it and an allow only if all that named it allowed it. No other
   * label keeps a shared rule, and no account a global one.
   */
  lemma SharedRulesAfter(tree: Tree, order: seq<string>, ids: seq<string>, key: string)
    requires "_global" !in order && "_default" !in ids
    ensures var after, place := Consolidate(tree, order, ids), Layer("_global", "_default");
            && (Holds(after, place, key) <==> exists site :: Holds(tree, Layer(site, "_default"), key))
            && (Holds(tree, place, key) ==> after["_global"]["_default"][key] == tree["_global"]["_default"][key])
            && (Holds(after, place, key) && !Holds(tree, place, key) ==>
                  && (after["_global"]["_default"][key] == Deny <==>
                      exists site :: Holds(tree, Layer(site, "_default"), key) && tree[site]["_default"][key] == Deny)
                  && (after["_global"]["_default"][key] == Allow <==>
                      forall site :: Holds(tree, Layer(site, "_default"), key) ==> tree[site]["_default"][key] == Allow))
            && (forall site :: site != "_global" ==> !Holds(after, Layer(site, "_default"), key))
            && (forall id :: id != "_default" ==> !Holds(after, Layer("_global", id), key))
  {
    hide Consolidated, SettleSites, Settling, Justified, Globals, At;
    var after, place := Consolidate(tree, order, ids), Layer("_global", "_default");
    ConsolidatedSettling(tree);
    SitesSettling(tree, Consolidated(tree), order, ids);
    forall l: Layer ensures Holds(after, l, key) <==> key in At(after, l.scope, l.id) { HeldAt(after, l, key); }
    SettlingPlaces(tree, after);
    HeldAt(tree, place, key);
    HeldAt(after, place, key);
    GlobalsAre(tree, key);
  }

  lemma HeldAt(tree: Tree, l: Layer, key: string)
    ensures Holds(tree, l, key) <==> key in At(tree, l.scope, l.id)
    ensures Holds(tree, l, key) ==> At(tree, l.scope, l.id)[key] == tree[l.scope][l.id][key]
  {}

  lemma SettlingPlaces(tree: Tree, after: Tree)
    requires Settling(tree, after)
    ensures At(after, "_global", "_default") == Globals(tree)
    ensures forall id :: id != "_default" ==> At(after, "_global", id) == map[]
    ensures forall site :: site != "_global" ==> At(after, site, "_default") == map[]
  {}

  lemma GlobalsAre(tree: Tree, key: string)
    ensures key in Globals(tree) <==> exists site :: Holds(tree, Layer(site, "_default"), key)
    ensures Holds(tree, Layer("_global", "_default"), key) ==> Globals(tree)[key] == tree["_global"]["_default"][key]
    ensures key in Globals(tree) && !Holds(tree, Layer("_global", "_default"), key) ==>
              && (Globals(tree)[key] == Deny <==> exists site :: Holds(tree, Layer(site, "_default"), key) && tree[site]["_default"][key] == Deny)
              && (Globals(tree)[key] == Allow <==> forall site :: Holds(tree, Layer(site, "_default"), key) ==> tree[site]["_default"][key] == Allow)
  {
    hide SiteDefault;
    forall d ensures SiteDefault(tree, tree.Keys, key, d) <==>
                     exists site :: site != "_global" && Holds(tree, Layer(site, "_default"), key) && tree[site]["_default"][key] == d {
      SiteDefaultIs(tree, key, d);
    }
    if key in Globals(tree) {
      if key in At(tree, GLOBAL, DEFAULT) {
        assert Holds(tree, Layer("_global", "_default"), key);
      } else {
        var o :| o in tree.Keys && o != GLOBAL && key in At(tree, o, DEFAULT);
        assert Holds(tree, Layer(o, "_default"), key);
      }
    }
    if site :| Holds(tree, Layer(site, "_default"), key) {
      assert site in tree.Keys && key in At(tree, site, DEFAULT);
    }
  }

  lemma SiteDefaultIs(tree: Tree, key: string, d: Decision)
    ensures SiteDefault(tree, tree.Keys, key, d) <==>
            exists site :: site != "_global" && Holds(tree, Layer(site, "_default"), key) && tree[site]["_default"][key] == d
  {
    if SiteDefault(tree, tree.Keys, key, d) {
      var o :| o in tree.Keys && o != GLOBAL && key in At(tree, o, DEFAULT) && At(tree, o, DEFAULT)[key] == d;
      assert Holds(tree, Layer(o, "_default"), key);
    }
    if site :| site != "_global" && Holds(tree, Layer(site, "_default"), key) && tree[site]["_default"][key] == d {
      assert site in tree.Keys;
    }
  }

  /** An account's own rule is kept under its label, and is the old one where the migration settled nothing. */
  lemma AccountRulesAfter(tree: Tree, order: seq<string>, ids: seq<string>, l: Layer, key: string)
    requires "_global" !in order && "_default" !in ids && l.scope != "_global" && l.id != "_default" && Holds(tree, l, key)
    ensures var after := Consolidate(tree, order, ids);
            Holds(after, l, key) && (l.scope !in order || l.id !in ids ==> after[l.scope][l.id][key] == tree[l.scope][l.id][key])
  {
    hide Consolidated, SettleSites, Settling, Justified, Globals, At;
    var after := Consolidate(tree, order, ids);
    ConsolidatedSettling(tree);
    SitesSettling(tree, Consolidated(tree), order, ids);
    SettlingAccounts(tree, after, l.scope, l.id);
    HeldAt(tree, l, key);
    HeldAt(after, l, key);
    if l.scope !in order {
      SitesUntouched(tree, Consolidated(tree), order, ids, l.scope, l.id);
    } else if l.id !in ids {
      SitesUnsettled(tree, Consolidated(tree), order, ids, l.scope, l.id);
    }
    ConsolidatedAt(tree, l.scope, l.id);
  }

  lemma SettlingAccounts(tree: Tree, after: Tree, site: string, id: string)
    requires Settling(tree, after) && site != "_global" && id != "_default"
    ensures At(tree, site, id).Keys <= At(after, site, id).Keys
  {}

  lemma {:induction false} SitesUnsettled(original: Tree, tree: Tree, order: seq<string>, ids: seq<string>, site: string, id: string)
    requires id !in ids
    ensures At(SettleSites(original, tree, order, ids), site, id) == At(tree, site, id)
  {
    hide SettleAccounts, At;
    if order != [] {
      SitesUnsettled(original, tree, order[..|order| - 1], ids, site, id);
      AccountsUntouched(original, SettleSites(original, tree, order[..|order| - 1], ids), order[|order| - 1], ids, site, id);
    }
  }

  /**
   * The rules of a stored label after the first migration. In shared mode the shared ones are all that is
   * left. In per-account mode they stay, and a known account holds what it held for the label and its
   * host, the label first, and an `ask` for every other key that was shared under either.
   */
  lemma InheritedRules(tree: Tree, ids: set<string>, shared: bool, site: string, id: string, key: string)
    requires site in tree && "_default" !in ids
    ensures var after, host := Inherit(tree, ids, shared), SiteScopes(site)[|SiteScopes(site)| - 1];
            var own, before := Layer(site, id), [Layer(SiteScopes(site)[0], id), Layer(host, id)];
            var defaults := [Layer(SiteScopes(site)[0], "_default"), Layer(host, "_default")];
            && FirstOf(after, [Layer(site, "_default")], key) == FirstOf(tree, [Layer(site, "_default")], key)
            && (shared && id != "_default" ==> FirstOf(after, [own], key) == None)
            && (!shared && id in ids ==>
                  FirstOf(after, [own], key) ==
                  if FirstOf(tree, before, key).Some? then FirstOf(tree, before, key)
                  else if FirstOf(tree, defaults, key).Some? then Some(Ask)
                  else None)
            && (!shared && id !in ids && id != "_default" ==> FirstOf(after, [own], key) == FirstOf(tree, [own], key))
  {
    hide SiteScopes, FirstOf, At, OriginBucket, Inherit, Holds;
    var after := Inherit(tree, ids, shared);
    InheritedSiteAt(tree, ids, shared, site, id);
    OneOf(after, Layer(site, "_default"), key);
    OneOf(tree, Layer(site, "_default"), key);
    OneOf(after, Layer(site, id), key);
    OneOf(tree, Layer(site, id), key);
    BucketOf(tree, site, id, key);
    BucketOf(tree, site, "_default", key);
  }

  function In(b: Bucket, key: string): Option<Decision> { if key in b then Some(b[key]) else None }

  lemma OneOf(tree: Tree, l: Layer, key: string)
    ensures FirstOf(tree, [l], key) == In(At(tree, l.scope, l.id), key)
  {
    assert [l][1..] == [];
  }

  lemma BucketOf(tree: Tree, site: string, id: string, key: string)
    ensures In(OriginBucket(tree, site, id), key) ==
            FirstOf(tree, [Layer(SiteScopes(site)[0], id), Layer(SiteScopes(site)[|SiteScopes(site)| - 1], id)], key)
  {
    hide SiteScopes;
    var layers := [Layer(SiteScopes(site)[0], id), Layer(SiteScopes(site)[|SiteScopes(site)| - 1], id)];
    assert layers[1..] == [layers[1]];
    OneOf(tree, layers[1], key);
    HeldAt(tree, layers[0], key);
  }

  lemma InheritedSiteAt(tree: Tree, ids: set<string>, shared: bool, site: string, id: string)
    requires site in tree && "_default" !in ids
    ensures var after := Inherit(tree, ids, shared);
            && At(after, site, "_default") == At(tree, site, "_default")
            && (shared && id != "_default" ==> At(after, site, id) == map[])
            && (!shared && id in ids ==> At(after, site, id) == (map k | k in OriginBucket(tree, site, "_default") :: Ask) + OriginBucket(tree, site, id))
            && (!shared && id !in ids && id != "_default" ==> At(after, site, id) == At(tree, site, id))
  {
    hide OriginBucket;
  }

  /** The accounts a migration knows, and whom it refuses to know. */
  lemma AccountsAre(tree: Tree, given: set<string>, id: string)
    ensures id in MigrationAccounts(tree, given) <==> id in given || (id != "_default" && exists site :: site in tree && id in tree[site])
    ensures Nameable(given) <==> "" !in given && "_default" !in given
  {
    if site :| site in tree && id in tree[site] { assert id in tree[site]; }
  }

  /** The store after each migration: the new tree, the old mode off, the new one on, and no journal. One that is already there changes nothing. */
  lemma MigratedStore(st: Stored, given: set<string>, order: seq<string>, ids: seq<string>)
    requires st.pending == None
    ensures var known := MigrationAccounts(st.tree, given);
            Inheriting(st, given) ==
            if st.inherits || "" in known || "_default" in known then st
            else Stored(Inherit(st.tree, known, st.shared), false, true, st.globalRules, None)
    ensures Globalized(st, order, ids) == if st.globalRules then st else Stored(Consolidate(st.tree, order, ids), false, true, true, None)
  {
    hide Inherit, Consolidate, MigrationAccounts;
  }

  /** The journal's writes, one by one: the tree, the legacy flag, the mode, for global rules their mark, and the journal's own removal. */
  lemma WritesAre(st: Stored, tree: Tree)
    requires st.pending == Some(Pending(tree, true))
    ensures Written(st, 0) == st
    ensures Written(st, 1) == Stored(tree, st.shared, st.inherits, st.globalRules, st.pending)
    ensures Written(st, 2) == Stored(tree, false, st.inherits, st.globalRules, st.pending)
    ensures Written(st, 3) == Stored(tree, false, true, st.globalRules, st.pending)
    ensures Written(st, 4) == Stored(tree, false, true, true, st.pending)
    ensures Written(st, 5) == Stored(tree, false, true, true, None)
    ensures var st1 := st.(pending := Some(Pending(tree, false)));
            && Written(st1, 3) == Stored(tree, false, true, st.globalRules, st1.pending)
            && Written(st1, 4) == Stored(tree, false, true, st.globalRules, None)
  {}
}
