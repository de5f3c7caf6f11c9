/**
 What the four-block builder takes from its inputs and what a follow-up question is refused for, said of the
 inputs themselves.
 */
module InvestigationDecisions {
  import opened Text
  import opened IpScan
  import opened ExplanationEngine
  import opened EngineTerms
  import opened Investigation

  // ----- The grounded set and the claims -----

  /** The part behind the last colon starts with an address. */
  predicate EndpointNames(t: Table, end: Option<string>, ip: string) {
    end.Some? && end.value != "" && ip == AfterLast(end.value, ':') && ip != "" && HitAt(t, ip, 0).Some?
  }

  /** An address is known when it is an inspected entity or an endpoint of the provenance. */
  lemma KnownIpsAre(t: Table, b: Bundle, r: Request, ip: string)
    ensures ip in KnownIps(t, b, r) <==>
      || IsInspected(b, ip)
      || (r.provenance.Some? && (EndpointNames(t, r.provenance.value.src, ip) || EndpointNames(t, r.provenance.value.dst, ip)))
  {
    if r.provenance.Some? {
      EndpointIs(t, r.provenance.value.src, ip);
      EndpointIs(t, r.provenance.value.dst, ip);
    }
  }

  lemma EndpointIs(t: Table, end: Option<string>, ip: string)
    ensures ip in EndpointIp(t, end) <==> EndpointNames(t, end, ip)
  {
    if end.Some? {
      var last := AfterLast(end.value, ':');
      assert last[0..] == last;
      if last == "" { assert QuadLength(t, last, 3) == None; }
    }
  }

  /** When a candidate explanation counts as grounded. */
  lemma GroundedIs(t: Table, b: Bundle, r: Request)
    requires Valid(t)
    ensures ExplanationGrounded(t, b, r) <==> match r.candidate
      case Structured(e) => MeetsTerms(t, e, b)
      case PlainText(s) => forall ip :: ip in FindAll(t, s) ==> ip in KnownIps(t, b, r)
      case Dictionary(text) => forall ip :: ip in FindAll(t, text) ==> ip in KnownIps(t, b, r)
      case _ => true
  {
    if r.candidate.Structured? { VerifiedIsTerms(t, r.candidate.e, b); }
  }

  lemma {:induction false} CleanAssetsAre(assets: seq<string>, x: string)
    ensures x in CleanAssets(assets) <==> x != "" && exists i :: 0 <= i < |assets| && Strip(assets[i]) == x
  {
    if assets != [] {
      CleanAssetsAre(assets[1..], x);
      if i :| 0 <= i < |assets| && Strip(assets[i]) == x {
        if i > 0 { assert assets[1..][i - 1] == assets[i]; }
      }
      if x in CleanAssets(assets[1..]) {
        var i :| 0 <= i < |assets[1..]| && Strip(assets[1..][i]) == x;
        assert assets[i + 1] == assets[1..][i];
      }
    }
  }

  /** Grounded claims about assets are used when there is one and all are known; otherwise the assets are all known
      addresses, or the lab pair when there is none. */
  lemma AssetsAre(t: Table, b: Bundle, r: Request, ip: string)
    ensures var known := KnownIps(t, b, r);
      if r.assets.Some? && ExplanationGrounded(t, b, r)
         && CleanAssets(r.assets.value) != [] && (forall x :: x in CleanAssets(r.assets.value) ==> x in known)
      then AffectedAssets(t, b, r) == CleanAssets(r.assets.value)
      else if known == [] then AffectedAssets(t, b, r) == ["10.0.0.4", "10.0.0.5"]
      else (ip in AffectedAssets(t, b, r) <==> ip in known)
  {
    SortedSetIsSorted(KnownIps(t, b, r));
  }

  // ----- The technique -----

  predicate IsCanonical(id: string) {
    || id == "T1046" || id == "T1190" || id == "T1498" || id == "T1071.001" || id == "T1595"
    || id == "T1110" || id == "T1041" || id == "T1021" || id == "T1059" || id == "T1133"
  }

  lemma CanonicalAre(id: string)
    ensures id in CANONICAL_TECHNIQUES <==> IsCanonical(id)
  {
  }

  /** A grounded claim of a canonical id, surrounding space aside, is used; without one the first hit's id if it
      passes the pattern; without that T1071.001. */
  lemma TechniqueIs(t: Table, b: Bundle, r: Request)
    requires Valid(t)
    ensures ChosenTechnique(t, b, r) ==
      if r.techniqueId.Some? && ExplanationGrounded(t, b, r) && IsCanonical(Strip(r.techniqueId.value))
      then Strip(r.techniqueId.value)
      else if b.hits != [] && b.hits[0].techniqueId.Some? && b.hits[0].techniqueId.value != ""
              && MatchesTechnique(t, b.hits[0].techniqueId.value)
      then b.hits[0].techniqueId.value
      else "T1071.001"
  {
    if r.techniqueId.Some? {
      CanonicalAre(Strip(r.techniqueId.value));
      if IsCanonical(Strip(r.techniqueId.value)) { CanonicalIsWellFormed(t, Strip(r.techniqueId.value)); }
    }
  }

  // ----- Techniques named in a question -----

  /** An id that stands alone is read, unless a longer one is read in its place. */
  lemma StandingAlone(t: Table, id: string, rest: string)
    requires TechniqueId(t, id) && (rest == "" || rest[0] !in t.word)
    ensures TechniqueLength(t, id + rest).Some? && TechniqueLength(t, id + rest).value >= |id|
  {
    var s := id + rest;
    assert s[..|id|] == id;
    if rest != "" { assert s[|id|] == rest[0]; }
  }

  /** And what is read is such an id. */
  lemma ReadIsTechnique(t: Table, s: string, n: nat)
    requires TechniqueLength(t, s) == Some(n)
    ensures n <= |s| && TechniqueId(t, s[..n]) && (n == |s| || s[n] !in t.word)
  {
  }

  lemma DigitBefore(t: Table, s: string, n: nat)
    requires Valid(t) && TechniqueLength(t, s) == Some(n)
    ensures n <= |s| && s[n - 1] in t.word
    ensures forall i :: 0 < i < n ==> s[i - 1] in t.word || s[i] != 'T'
  {
    var w := s[..n];
    assert 'T' < 128 as char;
    assert w[1..5][0] == s[1] && w[1..5][1] == s[2] && w[1..5][2] == s[3] && w[1..5][3] == s[4];
    if n == 9 { assert w[6..][0] == s[6] && w[6..][1] == s[7] && w[6..][2] == s[8]; }
  }

  lemma StartsWithT(t: Table, s: string, n: nat)
    requires TechniqueLength(t, s) == Some(n)
    ensures s != "" && s[0] == 'T'
  {
  }

  /** The scan lists every technique id the text names. */
  lemma {:induction false} NamedIsListed(t: Table, afterWord: bool, s: string, i: nat, n: nat)
    requires Valid(t) && i < |s| && i + n <= |s| && TechniqueLength(t, s[i..]) == Some(n)
    requires if i == 0 then !afterWord else s[i - 1] !in t.word
    ensures s[i..i + n] in ScanTechniques(t, afterWord, s)
    decreases |s|, 0
  {
    var m := if afterWord then None else TechniqueLength(t, s);
    StartsWithT(t, s[i..], n);
    assert s[0..] == s;
    if m.Some? {
      DigitBefore(t, s, m.value);
      if i > 0 {
        assert i > m.value;
        NamedFurtherOn(t, true, s, m.value, i, n);
      }
    } else {
      NamedFurtherOn(t, s[0] in t.word, s, 1, i, n);
    }
  }

  lemma NamedFurtherOn(t: Table, next: bool, s: string, k: nat, i: nat, n: nat)
    requires Valid(t) && 0 < k <= i < |s| && i + n <= |s| && TechniqueLength(t, s[i..]) == Some(n)
    requires s[i - 1] !in t.word && (i == k ==> !next)
    ensures s[i..i + n] in ScanTechniques(t, next, s[k..])
    decreases |s| - k, 1
  {
    assert s[k..][i - k..] == s[i..] && s[k..][i - k..i - k + n] == s[i..i + n];
    NamedIsListed(t, next, s[k..], i - k, n);
  }

  /** And nothing else. */
  lemma {:induction false} ListedIsNamed(t: Table, afterWord: bool, s: string, x: string) returns (i: nat)
    requires x in ScanTechniques(t, afterWord, s)
    ensures i + |x| <= |s| && x != "" && s[i..i + |x|] == x && TechniqueLength(t, s[i..]) == Some(|x|)
    decreases |s|
  {
    var m := if afterWord then None else TechniqueLength(t, s);
    if m.Some? && x == s[..m.value] {
      i := 0;
      assert s[0..] == s;
    } else {
      var n := if m.Some? then m.value else 1;
      var k := ListedIsNamed(t, m.Some? || s[0] in t.word, s[n..], x);
      i := n + k;
      assert s[n..][k..] == s[i..] && s[n..][k..k + |x|] == s[i..i + |x|];
    }
  }

  // ----- Refusals -----

  predicate IsVerb(w: string) {
    w == "isolate" || w == "contain" || w == "containment" || w == "quarantine" || w == "execute" || w == "block" || w == "kill"
  }

  /** A verb stands in the question, in any case, as a whole word. */
  predicate NamesVerb(t: Table, q: string, w: string, i: nat) {
    && i + |w| <= |q| && (forall k :: 0 <= k < |w| ==> FoldsTo(q[i + k], w[k]))
    && (i > 0 ==> q[i - 1] !in t.word) && (i + |w| < |q| ==> q[i + |w|] !in t.word)
  }

  /** A question that names an execution verb, an address that is not inspected, or a technique that no hit has, is
      refused: not verified, nothing cited. */
  lemma RefusedFor(t: Table, question: string, b: Bundle, p: string)
    requires Valid(t)
    requires (exists w, i :: IsVerb(w) && 0 <= i <= |question| && NamesVerb(t, question, w, i))
      || (exists ip :: ip in FindAll(t, question) && !IsInspected(b, ip))
      || (exists id :: id in ScanTechniques(t, false, question) && !FromBundle(b, "mitre:" + id))
    ensures var f := AnswerFollowUp(t, question, b, p);
      !f.verified && f.citedKeys == [] && f.answer == Refusal() && !f.executionAuthorized
  {
    if w, i :| IsVerb(w) && 0 <= i <= |question| && NamesVerb(t, question, w, i) {
      assert w in EXECUTION_VERBS && WordAt(t, question, w, i);
    }
    if ip :| ip in FindAll(t, question) && !IsInspected(b, ip) {
      assert ip in UnknownIps(t, question, b);
    }
    if id :| id in ScanTechniques(t, false, question) && !FromBundle(b, "mitre:" + id) {
      AllowedTechniqueIff(b, id);
      AllowedKeysAre(b, "mitre:" + id);
      assert id in UnknownTechniques(t, question, b);
    }
  }

  lemma NoElements(s: seq<string>)
    ensures s == [] <==> forall x :: x !in s
  {
    if s != [] { assert s[0] in s; }
  }

  /** And it is refused for nothing else. */
  lemma AnsweredOtherwise(t: Table, question: string, b: Bundle, p: string)
    requires Valid(t)
    requires forall w, i :: IsVerb(w) && 0 <= i <= |question| ==> !NamesVerb(t, question, w, i)
    requires forall ip :: ip in FindAll(t, question) ==> IsInspected(b, ip)
    requires forall id :: id in ScanTechniques(t, false, question) ==> FromBundle(b, "mitre:" + id)
    ensures AnswerFollowUp(t, question, b, p).answer == Answer(b, p, FOLLOWUP_KEYS)
    ensures AnswerFollowUp(t, question, b, p).citedKeys == FOLLOWUP_KEYS
  {
    if AsksExecution(t, question) {
      var w, i :| w in EXECUTION_VERBS && 0 <= i <= |question| && WordAt(t, question, w, i);
      assert IsVerb(w) && NamesVerb(t, question, w, i);
    }
    var ips, ids := UnknownIps(t, question, b), UnknownTechniques(t, question, b);
    NoElements(ips);
    if ids != [] {
      assert ids[0] in ids;
      AllowedTechniqueIff(b, ids[0]);
      AllowedKeysAre(b, "mitre:" + ids[0]);
    }
  }
}
