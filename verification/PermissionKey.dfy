/** The cascade: which stored keys one request consults, and what a bucket answers. */
module PermissionKey {
  import opened Common
  import opened Text

  datatype Decision = Allow | Ask | Deny

  type Bucket = map<string, Decision>

  /** A `signEvent` read names an integer kind, or fails to. */
  datatype Kind = Integer(n: int) | NotInteger

  const DM_SIGN_KINDS: set<int> := {4, 13, 14, 1059}
  const NIP42_KIND := 22242

  function IntText(n: int): string {
    if n < 0 then "-" + Numeral(-n, 10) else Numeral(n, 10)
  }

  /** `permissionKey` as a read uses it. */
  function LogicalKey(method_: string, kind: Kind): string {
    if "webln_" <= method_ then method_
    else if method_ == "signEvent" then
      if kind.NotInteger? then method_
      else if kind.n in DM_SIGN_KINDS then "sendMessages"
      else "signEvent:" + IntText(kind.n)
    else if method_ == "nip04Encrypt" || method_ == "nip44Encrypt" then "sendMessages"
    else if method_ == "nip04Decrypt" || method_ == "nip44Decrypt" then "readMessages"
    else method_
  }

  /** Most specific first. */
  function ConsultedKeys(method_: string, kind: Kind): (keys: seq<string>) {
    if method_ == "signEvent" && kind.NotInteger? then [method_, "*"]
    else if LogicalKey(method_, kind) != method_ then [LogicalKey(method_, kind), method_, "*"]
    else [method_, "*"]
  }

  datatype Answer = Answer(decision: Decision, key: Option<string>)

  function FirstDenied(b: Bucket, keys: seq<string>): Option<string> {
    if keys == [] then None
    else if keys[0] in b && b[keys[0]] == Deny then Some(keys[0])
    else FirstDenied(b, keys[1..])
  }

  function FirstSet(b: Bucket, keys: seq<string>): (k: Option<string>)
    ensures k.Some? ==> k.value in b
  {
    if keys == [] then None else if keys[0] in b then Some(keys[0]) else FirstSet(b, keys[1..])
  }

  /** A read no rule may authorise: a kind it failed to name, or a relay credential. */
  predicate Ungrantable(method_: string, kind: Kind) {
    method_ == "signEvent" && (kind.NotInteger? || kind.n == NIP42_KIND)
  }

  /** `resolveDetailed`. */
  function Resolve(b: Bucket, method_: string, kind: Kind): Answer {
    var keys := ConsultedKeys(method_, kind);
    var denied := FirstDenied(b, keys);
    if denied.Some? then Answer(Deny, denied)
    else if Ungrantable(method_, kind) then Answer(Ask, None)
    else
      var set_ := FirstSet(b, keys);
      if set_.Some? then Answer(b[set_.value], set_) else Answer(Ask, None)
  }

  /** The searches as the source runs them. */
  method ResolveDetailed(b: Bucket, method_: string, kind: Kind) returns (r: Answer)
    ensures r == Resolve(b, method_, kind)
  {
    var keys := ConsultedKeys(method_, kind);
    var i := 0;
    while i < |keys|
      invariant 0 <= i <= |keys| && FirstDenied(b, keys) == FirstDenied(b, keys[i..])
    {
      if keys[i] in b && b[keys[i]] == Deny { return Answer(Deny, Some(keys[i])); }
      assert keys[i..][1..] == keys[i + 1..];
      i := i + 1;
    }
    if Ungrantable(method_, kind) { return Answer(Ask, None); }
    i := 0;
    while i < |keys|
      invariant 0 <= i <= |keys| && FirstSet(b, keys) == FirstSet(b, keys[i..])
    {
      if keys[i] in b { return Answer(b[keys[i]], Some(keys[i])); }
      assert keys[i..][1..] == keys[i + 1..];
      i := i + 1;
    }
    r := Answer(Ask, None);
  }

  // ── Decisions up to "absent means ask" ──

  function ValueOf(b: Bucket, key: string): Decision {
    if key in b then b[key] else Ask
  }

  ghost predicate SameValues(a: Bucket, b: Bucket) {
    forall k :: ValueOf(a, k) == ValueOf(b, k)
  }

  lemma {:induction false} DeniedByValue(b: Bucket, keys: seq<string>)
    ensures FirstDenied(b, keys).Some? <==> exists i :: 0 <= i < |keys| && ValueOf(b, keys[i]) == Deny
  {
    if keys != [] {
      DeniedByValue(b, keys[1..]);
      if exists i :: 0 <= i < |keys| && ValueOf(b, keys[i]) == Deny {
        var i :| 0 <= i < |keys| && ValueOf(b, keys[i]) == Deny;
        if i > 0 { assert ValueOf(b, keys[1..][i - 1]) == Deny; }
      }
      if FirstDenied(b, keys).Some? {
        if ValueOf(b, keys[0]) != Deny {
          var i :| 0 <= i < |keys[1..]| && ValueOf(b, keys[1..][i]) == Deny;
          assert ValueOf(b, keys[i + 1]) == Deny;
        }
      }
    }
  }

  /** Deny wins: the answer is `deny` exactly when some consulted level holds one. */
  lemma DenyWins(b: Bucket, method_: string, kind: Kind)
    ensures Resolve(b, method_, kind).decision == Deny <==>
            exists i :: 0 <= i < |ConsultedKeys(method_, kind)| && ValueOf(b, ConsultedKeys(method_, kind)[i]) == Deny
  {
    hide ConsultedKeys;
    var keys := ConsultedKeys(method_, kind);
    DeniedByValue(b, keys);
    if FirstDenied(b, keys).None? && FirstSet(b, keys).Some? { SetIsConsulted(b, keys); }
  }

  lemma {:induction false} SetIsConsulted(b: Bucket, keys: seq<string>)
    requires FirstSet(b, keys).Some?
    ensures exists i :: 0 <= i < |keys| && keys[i] == FirstSet(b, keys).value && forall j :: 0 <= j < i ==> keys[j] !in b
  {
    if keys[0] !in b {
      SetIsConsulted(b, keys[1..]);
      var i :| 0 <= i < |keys[1..]| && keys[1..][i] == FirstSet(b, keys[1..]).value && forall j :: 0 <= j < i ==> keys[1..][j] !in b;
      forall j | 0 <= j < i + 1 ensures keys[j] !in b {
        if j > 0 { assert keys[j] == keys[1..][j - 1]; }
      }
      assert keys[i + 1] == FirstSet(b, keys).value;
    } else {
      assert keys[0] == FirstSet(b, keys).value;
    }
  }

  /** A refusal survives any rewriting that keeps the values. */
  lemma SameValuesSameDenials(a: Bucket, b: Bucket, method_: string, kind: Kind)
    requires SameValues(a, b)
    ensures Resolve(a, method_, kind).decision == Deny <==> Resolve(b, method_, kind).decision == Deny
  {
    hide ConsultedKeys, Resolve;
    DenyWins(a, method_, kind);
    DenyWins(b, method_, kind);
  }

  // ── When the whole answer survives ──

  /** An allow is reached: every more specific level is among the keys not `present`. */
  ghost predicate Opens(b: Bucket, keys: seq<string>, present: set<string>) {
    exists j :: 0 <= j < |keys| && ValueOf(b, keys[j]) == Allow && forall m :: 0 <= m < j && ValueOf(b, keys[m]) == Ask ==> keys[m] !in present
  }

  lemma AllowMeansOpen(b: Bucket, method_: string, kind: Kind)
    requires Resolve(b, method_, kind).decision != Deny && !Ungrantable(method_, kind)
    ensures Resolve(b, method_, kind).decision == Allow <==> Opens(b, ConsultedKeys(method_, kind), b.Keys)
  {
    hide ConsultedKeys;
    var keys := ConsultedKeys(method_, kind);
    DenyWins(b, method_, kind);
    if FirstSet(b, keys).Some? {
      SetIsConsulted(b, keys);
      var i :| 0 <= i < |keys| && keys[i] == FirstSet(b, keys).value && forall j :: 0 <= j < i ==> keys[j] !in b;
      if Opens(b, keys, b.Keys) {
        var j :| 0 <= j < |keys| && ValueOf(b, keys[j]) == Allow && forall m :: 0 <= m < j && ValueOf(b, keys[m]) == Ask ==> keys[m] !in b.Keys;
        assert keys[j] in b;
        assert i <= j;
        if i < j { assert ValueOf(b, keys[i]) != Deny; }
      }
    } else {
      NoneSet(b, keys);
    }
  }

  lemma {:induction false} NoneSet(b: Bucket, keys: seq<string>)
    requires FirstSet(b, keys).None?
    ensures forall i :: 0 <= i < |keys| ==> keys[i] !in b
  {
    if keys != [] {
      NoneSet(b, keys[1..]);
      forall i | 0 <= i < |keys| ensures keys[i] !in b {
        if i > 0 { assert keys[i] == keys[1..][i - 1]; }
      }
    }
  }

  /**
   * Two buckets with the same values answer one request alike if and only if an allow is reached
   * past the explicit asks of the one exactly when it is past those of the other.
   */
  lemma SameAnswerExactly(a: Bucket, b: Bucket, method_: string, kind: Kind)
    requires SameValues(a, b)
    ensures Resolve(a, method_, kind).decision == Resolve(b, method_, kind).decision <==>
            (Resolve(a, method_, kind).decision == Deny || Ungrantable(method_, kind)
             || (Opens(a, ConsultedKeys(method_, kind), a.Keys) <==> Opens(a, ConsultedKeys(method_, kind), b.Keys)))
  {
    hide ConsultedKeys, SameValues;
    var keys := ConsultedKeys(method_, kind);
    SameValuesSameDenials(a, b, method_, kind);
    if Resolve(a, method_, kind).decision != Deny && !Ungrantable(method_, kind) {
      AllowMeansOpen(a, method_, kind);
      AllowMeansOpen(b, method_, kind);
      SameOpens(a, b, keys, b.Keys);
    }
  }

  lemma SameOpens(a: Bucket, b: Bucket, keys: seq<string>, present: set<string>)
    requires SameValues(a, b)
    ensures Opens(a, keys, present) <==> Opens(b, keys, present)
  {
    hide ValueOf;
  }

  /** Only what is present among the ask-valued keys matters. */
  lemma SamePresence(a: Bucket, keys: seq<string>, p: set<string>, q: set<string>)
    requires forall k :: ValueOf(a, k) == Ask ==> (k in p <==> k in q)
    ensures Opens(a, keys, p) <==> Opens(a, keys, q)
  {
    if Opens(a, keys, p) {
      var j :| 0 <= j < |keys| && ValueOf(a, keys[j]) == Allow && forall m :: 0 <= m < j && ValueOf(a, keys[m]) == Ask ==> keys[m] !in p;
      assert forall m :: 0 <= m < j && ValueOf(a, keys[m]) == Ask ==> keys[m] !in q;
    }
    if Opens(a, keys, q) {
      var j :| 0 <= j < |keys| && ValueOf(a, keys[j]) == Allow && forall m :: 0 <= m < j && ValueOf(a, keys[m]) == Ask ==> keys[m] !in q;
      assert forall m :: 0 <= m < j && ValueOf(a, keys[m]) == Ask ==> keys[m] !in p;
    }
  }

  /** A wildcard allow over a key nobody decided: only an explicit ask stands in its way. */
  lemma PublicKeyAnswer(b: Bucket)
    requires ValueOf(b, "*") == Allow && ValueOf(b, "getPublicKey") == Ask
    ensures Resolve(b, "getPublicKey", NotInteger).decision == if "getPublicKey" in b then Ask else Allow
    ensures !Ungrantable("getPublicKey", NotInteger)
    ensures forall present: set<string> :: Opens(b, ConsultedKeys("getPublicKey", NotInteger), present) <==> "getPublicKey" !in present
  {
    hide Resolve;
    var keys := ConsultedKeys("getPublicKey", NotInteger);
    assert keys == ["getPublicKey", "*"];
    forall present: set<string> ensures Opens(b, keys, present) <==> "getPublicKey" !in present {
      if "getPublicKey" !in present { assert ValueOf(b, keys[1]) == Allow; } else { assert ValueOf(b, keys[0]) == Ask; }
    }
    DenyWins(b, "getPublicKey", NotInteger);
    AllowMeansOpen(b, "getPublicKey", NotInteger);
  }
}
