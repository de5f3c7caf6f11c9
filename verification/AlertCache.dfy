/**
 The follower's alert cache: an insertion-ordered dictionary of signatures, refreshed on
 every alert and cut to its newest entries, against a specification over the alert history.
 */
module AlertCache {
  import opened Text

  const CACHE_LIMIT: nat := 256

  datatype AlertKey = AlertKey(srcIp: string, destIp: string, proto: string, destPort: int)

  type Entry = (AlertKey, string)

  /** What int() makes of the port: no integer, an integer, or an infinite float, for which it overflows. */
  datatype Port = Unusable | Number(n: int) | Infinite

  /** An alert event as json.loads gives it: None for a missing or unusable value. */
  datatype EveRecord = EveRecord(
    signature: Option<string>,
    srcIp: Option<string>,
    destIp: Option<string>,
    proto: Option<string>,
    destPort: Port)

  /** The entry an alert contributes, when it has a usable signature and 4-tuple. */
  function ValidAlert(r: EveRecord): Option<Entry> {
    if Addressed(r) && r.destPort.Number?
    then Some((AlertKey(r.srcIp.value, r.destIp.value, Lower(r.proto.value), r.destPort.n), Strip(r.signature.value)))
    else None
  }

  function RecordAlert(r: EveRecord): seq<Entry> { match ValidAlert(r) case Some(a) => [a] case None => [] }

  /** A usable signature and everything of the 4-tuple before the port. */
  predicate Addressed(r: EveRecord) {
    r.signature.Some? && Strip(r.signature.value) != "" && r.srcIp.Some? && r.destIp.Some? && r.proto.Some?
  }

  /** The overflow of an infinite port is not among the errors remember_alert catches. */
  predicate Overflows(r: EveRecord) { Addressed(r) && r.destPort.Infinite? }

  // ----- One step -----

  predicate Has(e: seq<Entry>, k: AlertKey) {
    exists i :: 0 <= i < |e| && e[i].0 == k
  }

  function Remove(e: seq<Entry>, k: AlertKey): (r: seq<Entry>)
    ensures |r| <= |e|
  {
    if e == [] then [] else (if e[0].0 == k then [] else [e[0]]) + Remove(e[1..], k)
  }

  lemma {:induction false} RemoveMembers(e: seq<Entry>, k: AlertKey)
    ensures forall x :: x in Remove(e, k) <==> x in e && x.0 != k
  {
    if e != [] {
      assert e == [e[0]] + e[1..];
      RemoveMembers(e[1..], k);
    }
  }

  /** Re-insert the key at the end. */
  function Touch(e: seq<Entry>, a: Entry): seq<Entry> { Remove(e, a.0) + [a] }

  /** Keep the newest entries. */
  function Trim(e: seq<Entry>): seq<Entry> {
    if |e| > CACHE_LIMIT then e[|e| - CACHE_LIMIT..] else e
  }

  /** The cache after a history of valid alerts. */
  function Replay(h: seq<Entry>): seq<Entry> {
    if h == [] then [] else Trim(Touch(Replay(h[..|h| - 1]), h[|h| - 1]))
  }

  ghost predicate DistinctKeys(e: seq<Entry>) {
    forall i, j :: 0 <= i < j < |e| ==> e[i].0 != e[j].0
  }

  // ----- The specification over the history -----

  /** The signature of the last alert for k. */
  function LastSignature(h: seq<Entry>, k: AlertKey): Option<string> {
    if h == [] then None
    else if h[|h| - 1].0 == k then Some(h[|h| - 1].1)
    else LastSignature(h[..|h| - 1], k)
  }

  /** The other keys that had an alert after the last one for k. */
  function LaterKeys(h: seq<Entry>, k: AlertKey): set<AlertKey> {
    if h == [] || h[|h| - 1].0 == k then {} else LaterKeys(h[..|h| - 1], k) + {h[|h| - 1].0}
  }

  // ----- The cache without a limit -----

  function Unlimited(h: seq<Entry>): seq<Entry> {
    if h == [] then [] else Touch(Unlimited(h[..|h| - 1]), h[|h| - 1])
  }

  lemma {:induction false} RemoveConcat(a: seq<Entry>, b: seq<Entry>, k: AlertKey)
    ensures Remove(a + b, k) == Remove(a, k) + Remove(b, k)
  {
    if a == [] {
      assert a + b == b;
    } else {
      assert (a + b)[1..] == a[1..] + b;
      RemoveConcat(a[1..], b, k);
    }
  }

  lemma {:induction false} RemoveLength(e: seq<Entry>, k: AlertKey)
    requires DistinctKeys(e)
    ensures |Remove(e, k)| == if Has(e, k) then |e| - 1 else |e|
    ensures !Has(e, k) ==> Remove(e, k) == e
  {
    if e != [] {
      RemoveLength(e[1..], k);
      if Has(e[1..], k) {
        var i :| 0 <= i < |e[1..]| && e[1..][i].0 == k;
        assert e[i + 1].0 == k && e[0].0 != k;
      }
      if Has(e, k) && e[0].0 != k {
        var i :| 0 <= i < |e| && e[i].0 == k;
        assert e[1..][i - 1].0 == k;
      }
    }
  }

  lemma {:induction false} RemoveKeepsDistinct(e: seq<Entry>, k: AlertKey)
    requires DistinctKeys(e)
    ensures DistinctKeys(Remove(e, k))
  {
    if e != [] {
      RemoveKeepsDistinct(e[1..], k);
      RemoveMembers(e[1..], k);
      var r := Remove(e, k);
      if e[0].0 != k {
        forall j | 0 < j < |r| ensures r[0].0 != r[j].0 {
          assert r[j] in Remove(e[1..], k);
          var i :| 0 <= i < |e[1..]| && e[1..][i] == r[j];
          assert e[i + 1] == r[j];
        }
      }
    }
  }

  lemma {:induction false} UnlimitedIsDistinct(h: seq<Entry>)
    ensures DistinctKeys(Unlimited(h))
  {
    if h != [] {
      var before, a := Unlimited(h[..|h| - 1]), h[|h| - 1];
      UnlimitedIsDistinct(h[..|h| - 1]);
      RemoveKeepsDistinct(before, a.0);
      RemoveMembers(before, a.0);
      var r := Remove(before, a.0);
      assert forall i :: 0 <= i < |r| ==> r[i] in r;
    }
  }

  lemma TrimIgnoresOlder(p: seq<Entry>, w: seq<Entry>)
    requires |w| >= CACHE_LIMIT
    ensures Trim(p + w) == Trim(w)
  {
  }

  lemma TouchBehindOlder(x: seq<Entry>, y: seq<Entry>, a: Entry)
    requires |y| == CACHE_LIMIT && DistinctKeys(y)
    ensures Trim(Touch(x + y, a)) == Trim(Touch(y, a))
  {
    RemoveConcat(x, y, a.0);
    RemoveLength(y, a.0);
    var w := Remove(y, a.0) + [a];
    assert Touch(x + y, a) == Remove(x, a.0) + w;
    TrimIgnoresOlder(Remove(x, a.0), w);
  }

  /** Trimming before a touch loses nothing that trimming after it would keep. */
  lemma TrimThenTouch(u: seq<Entry>, a: Entry)
    requires DistinctKeys(u)
    ensures Trim(Touch(Trim(u), a)) == Trim(Touch(u, a))
  {
    if |u| > CACHE_LIMIT {
      var x, y := u[..|u| - CACHE_LIMIT], u[|u| - CACHE_LIMIT..];
      assert u == x + y;
      TouchBehindOlder(x, y, a);
    }
  }

  /** The bounded cache is the newest part of the unlimited one. */
  lemma {:induction false} ReplayIsTrimmed(h: seq<Entry>)
    ensures Replay(h) == Trim(Unlimited(h))
  {
    if h != [] {
      ReplayIsTrimmed(h[..|h| - 1]);
      UnlimitedIsDistinct(h[..|h| - 1]);
      TrimThenTouch(Unlimited(h[..|h| - 1]), h[|h| - 1]);
    }
  }

  // ----- Positions in the unlimited cache -----

  /** The entries behind k's. */
  function Following(e: seq<Entry>, k: AlertKey): seq<Entry> {
    if e == [] then [] else if e[0].0 == k then e[1..] else Following(e[1..], k)
  }

  function Value(e: seq<Entry>, k: AlertKey): Option<string> {
    if e == [] then None else if e[0].0 == k then Some(e[0].1) else Value(e[1..], k)
  }

  function Keys(e: seq<Entry>): set<AlertKey> { set x | x in e :: x.0 }

  /** Touching another key drops it from behind k and puts it last. */
  lemma {:induction false} TouchOther(e: seq<Entry>, a: Entry, k: AlertKey)
    requires k != a.0
    ensures Value(Touch(e, a), k) == Value(e, k)
    ensures Value(e, k).Some? ==> Following(Touch(e, a), k) == Remove(Following(e, k), a.0) + [a]
  {
    var r := Touch(e, a);
    if e == [] {
      assert r == [a] && r[1..] == [];
    } else if e[0].0 == a.0 {
      assert r == Touch(e[1..], a);
      TouchOther(e[1..], a, k);
    } else {
      assert r[1..] == Touch(e[1..], a);
      TouchOther(e[1..], a, k);
    }
  }

  lemma {:induction false} TouchSame(e: seq<Entry>, a: Entry)
    ensures Value(Touch(e, a), a.0) == Some(a.1) && Following(Touch(e, a), a.0) == []
  {
    RemoveMembers(e, a.0);
    AppendToAbsent(Remove(e, a.0), a);
  }

  lemma {:induction false} AppendToAbsent(e: seq<Entry>, a: Entry)
    requires forall x :: x in e ==> x.0 != a.0
    ensures Value(e + [a], a.0) == Some(a.1) && Following(e + [a], a.0) == []
  {
    if e == [] {
      assert (e + [a])[1..] == [];
    } else {
      assert e[0] in e;
      assert (e + [a])[1..] == e[1..] + [a];
      AppendToAbsent(e[1..], a);
    }
  }

  /** In the unlimited cache k holds its last signature, followed by exactly the keys alerted later. */
  lemma {:induction false} UnlimitedIsHistory(h: seq<Entry>, k: AlertKey)
    ensures Value(Unlimited(h), k) == LastSignature(h, k)
    ensures LastSignature(h, k).Some? ==> Keys(Following(Unlimited(h), k)) == LaterKeys(h, k)
  {
    if h != [] {
      var before, a := h[..|h| - 1], h[|h| - 1];
      UnlimitedIsHistory(before, k);
      if a.0 == k {
        TouchSame(Unlimited(before), a);
      } else {
        TouchOther(Unlimited(before), a, k);
        if LastSignature(h, k).Some? {
          var f := Following(Unlimited(before), k);
          RemoveMembers(f, a.0);
          assert Keys(Remove(f, a.0) + [a]) == Keys(f) + {a.0};
        }
      }
    }
  }

  lemma {:induction false} DistinctKeyCount(e: seq<Entry>)
    requires DistinctKeys(e)
    ensures |Keys(e)| == |e|
  {
    if e != [] {
      DistinctKeyCount(e[1..]);
      assert Keys(e) == {e[0].0} + Keys(e[1..]) by { assert e == [e[0]] + e[1..]; }
    } else {
      assert Keys(e) == {};
    }
  }

  /** A suffix keeps k exactly when k has few enough followers. */
  lemma {:induction false} SuffixKeeps(e: seq<Entry>, n: nat, k: AlertKey, s: string)
    requires DistinctKeys(e) && n <= |e|
    ensures (k, s) in e[n..] <==> Value(e, k) == Some(s) && |Following(e, k)| < |e| - n
    ensures Value(e, k).Some? ==> |Following(e, k)| < |e| && DistinctKeys(Following(e, k))
  {
    if e != [] {
      if n > 0 {
        SuffixKeeps(e[1..], n - 1, k, s);
        assert e[n..] == e[1..][n - 1..];
      } else {
        SuffixKeeps(e[1..], 0, k, s);
        assert e[0..] == e && e[1..][0..] == e[1..];
        assert e == [e[0]] + e[1..];
      }
    }
  }

  /** The cache holds s for k exactly when s is k's last signature and fewer than the limit
      of other keys were alerted since; it never grows past the limit. */
  lemma CacheMatchesHistory(h: seq<Entry>, k: AlertKey, s: string)
    ensures (k, s) in Replay(h) <==> LastSignature(h, k) == Some(s) && |LaterKeys(h, k)| < CACHE_LIMIT
    ensures |Replay(h)| <= CACHE_LIMIT && DistinctKeys(Replay(h))
  {
    var u := Unlimited(h);
    ReplayIsTrimmed(h);
    UnlimitedIsDistinct(h);
    UnlimitedIsHistory(h, k);
    var n := if |u| > CACHE_LIMIT then |u| - CACHE_LIMIT else 0;
    assert u[n..] == Trim(u);
    SuffixKeeps(u, n, k, s);
    if LastSignature(h, k).Some? {
      DistinctKeyCount(Following(u, k));
    }
  }

  // ----- The mutable cache -----

  lemma ReplayStep(h: seq<Entry>, a: Entry)
    ensures Replay(h + [a]) == Trim(Touch(Replay(h), a))
  {
    assert (h + [a])[..|h|] == h;
  }

  lemma LookupIsMembership(e: seq<Entry>, k: AlertKey, s: string)
    requires DistinctKeys(e)
    ensures Value(e, k) == Some(s) <==> (k, s) in e
  {
    SuffixKeeps(e, 0, k, s);
    assert e[0..] == e;
  }

  /** The newest alert is its key's last signature with nothing after it, and changes no other key's. */
  lemma NewestAlert(h: seq<Entry>, a: Entry)
    ensures LastSignature(h + [a], a.0) == Some(a.1) && LaterKeys(h + [a], a.0) == {}
    ensures forall k :: k != a.0 ==> LastSignature(h + [a], k) == LastSignature(h, k)
    ensures forall k :: k != a.0 && LastSignature(h, k).Some? ==> LaterKeys(h + [a], k) == LaterKeys(h, k) + {a.0}
  {
    assert (h + [a])[..|h|] == h;
  }

  /** Drop the oldest entry while there are too many. */
  method Evict(entries: seq<Entry>) returns (kept: seq<Entry>)
    ensures kept == Trim(entries)
  {
    kept := entries;
    while |kept| > CACHE_LIMIT
      invariant Trim(kept) == Trim(entries)
    {
      kept := kept[1..];
    }
  }

  class Cache {
    var entries: seq<Entry>
    ghost var history: seq<Entry>

    ghost predicate Valid() reads this {
      entries == Replay(history)
    }

    constructor ()
      ensures Valid() && history == []
    {
      entries, history := [], [];
    }

    /** remember_alert: refresh the key's entry, then evict the oldest while over the limit. An alert with a
        signature, both addresses, a protocol and an integer port is found under those four values from then
        on, and no other key is affected; any other record leaves the history alone. */
    method Remember(r: EveRecord) returns (raised: bool)
      requires Valid()
      modifies this
      ensures Valid() && history == old(history) + RecordAlert(r)
      ensures (r.signature.Some? && Strip(r.signature.value) != "" && r.srcIp.Some? && r.destIp.Some? && r.proto.Some?) ==>
        && (raised <==> r.destPort.Infinite?)
        && (r.destPort.Number? ==>
            var k := AlertKey(r.srcIp.value, r.destIp.value, Lower(r.proto.value), r.destPort.n);
            && LastSignature(history, k) == Some(Strip(r.signature.value)) && LaterKeys(history, k) == {}
            && forall other :: other != k ==> LastSignature(history, other) == LastSignature(old(history), other))
        && (!r.destPort.Number? ==> history == old(history))
      ensures (r.signature.None? || Strip(r.signature.value) == "" || r.srcIp.None? || r.destIp.None? || r.proto.None?) ==>
        !raised && history == old(history)
    {
      raised := Overflows(r);
      var alert := ValidAlert(r);
      if alert.None? { return; }
      var a := alert.value;
      entries := Evict(Remove(entries, a.0) + [a]);
      history := history + [a];
      ReplayStep(old(history), a);
      NewestAlert(old(history), a);
    }

    /** The signature sensor_payload attaches to a flow. */
    method Lookup(srcIp: string, destIp: string, proto: string, destPort: int) returns (signature: Option<string>)
      requires Valid()
      ensures var k := AlertKey(srcIp, destIp, Lower(proto), destPort);
        signature == if |LaterKeys(history, k)| < CACHE_LIMIT then LastSignature(history, k) else None
    {
      var k := AlertKey(srcIp, destIp, Lower(proto), destPort);
      signature := Value(entries, k);
      forall s ensures Value(entries, k) == Some(s)
          <==> LastSignature(history, k) == Some(s) && |LaterKeys(history, k)| < CACHE_LIMIT {
        CacheMatchesHistory(history, k, s);
        LookupIsMembership(entries, k, s);
      }
    }
  }

  /** A flow with the addresses, protocol and port of the alert just remembered gets its signature. */
  method AlertThenFlow(cache: Cache, signature: string, src: string, dst: string, proto: string, port: int)
      returns (found: Option<string>)
    requires cache.Valid() && Strip(signature) != ""
    modifies cache
    ensures cache.Valid() && found == Some(Strip(signature))
  {
    var raised := cache.Remember(EveRecord(Some(signature), Some(src), Some(dst), Some(proto), Number(port)));
    found := cache.Lookup(src, dst, proto, port);
  }
}
