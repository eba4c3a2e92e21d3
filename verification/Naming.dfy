/** foreman.py: the Kubernetes name of a deliverable's Workload. */
module Naming {
  import opened Basics
  import opened Text

  predicate DnsSafe(c: char) { 'a' <= c <= 'z' || IsDigit(c) || c == '-' }

  /** Every maximal run of unsafe characters becomes one dash. */
  function Dashed(s: string, inRun: bool): string {
    if s == "" then ""
    else if DnsSafe(s[0]) then [s[0]] + Dashed(s[1..], false)
    else if inRun then Dashed(s[1..], true)
    else "-" + Dashed(s[1..], true)
  }

  function TrimDashesEnd(s: string): string {
    if s != "" && s[|s| - 1] == '-' then TrimDashesEnd(s[..|s| - 1]) else s
  }

  function TrimDashesStart(s: string): string {
    if s != "" && s[0] == '-' then TrimDashesStart(s[1..]) else s
  }

  function Take(s: string, n: nat): string { if |s| <= n then s else s[..n] }

  function Stem(planId: string): string {
    var stem := Take(TrimDashesStart(TrimDashesEnd(Dashed(Lower(planId), false))), 39);
    if stem == "" then "plan" else stem
  }

  function ShortHash(hash: string): string {
    Take(if "sha256:" <= hash then hash[7..] else hash, 12)
  }

  function Suffix(position: Option<nat>, attempt: nat): string {
    (if position.None? then "" else "-d" + Decimal(position.value))
    + (if attempt > 1 then "-a" + Decimal(attempt) else "")
  }

  function WorkloadName(planId: string, hash: string, position: Option<nat>, attempt: nat): string {
    TrimDashesEnd(Take(Stem(planId) + "-" + ShortHash(hash) + Suffix(position, attempt), 63))
  }

  predicate HexDigit(c: char) { IsDigit(c) || 'a' <= c <= 'f' }

  /** The ids matrix.py makes: "plan-" and sixteen hexadecimal digits. */
  predicate GatewayPlanId(p: string) {
    |p| == 21 && p[..5] == "plan-" && forall i | 5 <= i < 21 :: HexDigit(p[i])
  }

  /** The digests models.py makes: "sha256:" and sixty-four hexadecimal digits. */
  predicate Digest(h: string) {
    |h| == 71 && h[..7] == "sha256:" && forall i | 7 <= i < 71 :: HexDigit(h[i])
  }

  /** Ten to the twenty-second. */
  const ATTEMPT_LIMIT: nat := 1_00000_00000_00000_00000_00

  lemma {:induction false} DashedSafe(s: string, inRun: bool)
    requires forall i | 0 <= i < |s| :: DnsSafe(s[i])
    ensures Dashed(s, inRun) == s
  {
    if s != "" { DashedSafe(s[1..], false); }
  }

  predicate AllSafe(s: string) { forall i | 0 <= i < |s| :: DnsSafe(s[i]) }

  lemma {:induction false} DashedIsSafe(s: string, inRun: bool)
    ensures AllSafe(Dashed(s, inRun))
  {
    if s != "" {
      DashedIsSafe(s[1..], false);
      DashedIsSafe(s[1..], true);
    }
  }

  lemma {:induction false} DashesTrimmed(s: string)
    ensures TrimDashesEnd(s) <= s && (TrimDashesEnd(s) != "" ==> TrimDashesEnd(s)[|TrimDashesEnd(s)| - 1] != '-')
    decreases |s|
  {
    if s != "" && s[|s| - 1] == '-' { DashesTrimmed(s[..|s| - 1]); }
  }

  lemma {:induction false} LeadingTrimmed(s: string)
    ensures AllSafe(s) ==> AllSafe(TrimDashesStart(s))
    ensures TrimDashesStart(s) != "" ==> TrimDashesStart(s)[0] != '-'
  {
    if s != "" && s[0] == '-' { LeadingTrimmed(s[1..]); }
  }

  lemma StemIsSafe(p: string)
    ensures 1 <= |Stem(p)| <= 39 && AllSafe(Stem(p)) && Stem(p)[0] != '-'
  {
    var d := Dashed(Lower(p), false);
    DashedIsSafe(Lower(p), false);
    DashesTrimmed(d);
    assert AllSafe(TrimDashesEnd(d));
    LeadingTrimmed(TrimDashesEnd(d));
  }

  lemma {:induction false} TrimKeepsFirst(s: string)
    requires s != "" && s[0] != '-'
    ensures TrimDashesEnd(s) != "" && TrimDashesEnd(s)[0] == s[0]
    decreases |s|
  {
    if s[|s| - 1] == '-' { TrimKeepsFirst(s[..|s| - 1]); }
  }

  lemma SuffixIsSafe(position: Option<nat>, attempt: nat)
    ensures AllSafe(Suffix(position, attempt))
  {
  }

  /** Whatever the plan id, the name is one Kubernetes takes: at most 63 lower-case letters, digits and dashes, with no dash at
      either end. */
  lemma NameIsLabel(p: string, h: string, position: Option<nat>, attempt: nat)
    requires Digest(h)
    ensures var name := WorkloadName(p, h, position, attempt);
            1 <= |name| <= 63 && AllSafe(name) && name[0] != '-' && name[|name| - 1] != '-'
  {
    StemIsSafe(p);
    SuffixIsSafe(position, attempt);
    assert AllSafe(ShortHash(h));
    hide Stem, ShortHash, Suffix, Digest, DnsSafe;
    var whole := Stem(p) + "-" + ShortHash(h) + Suffix(position, attempt);
    SafeParts(Stem(p), ShortHash(h), Suffix(position, attempt));
    DashesTrimmed(Take(whole, 63));
    TrimKeepsFirst(Take(whole, 63));
  }

  lemma SafeParts(a: string, b: string, c: string)
    requires AllSafe(a) && AllSafe(b) && AllSafe(c)
    ensures AllSafe(a + "-" + b + c)
  {
    assert DnsSafe('-');
    hide DnsSafe;
  }

  /** A gateway plan id survives the sanitiser untouched. */
  lemma GatewayStem(p: string)
    requires GatewayPlanId(p)
    ensures Stem(p) == p
  {
    forall i | 0 <= i < |p| ensures DnsSafe(p[i]) && LowerChar(p[i]) == p[i] {
      if i < 5 { assert p[i] == p[..5][i] == "plan-"[i]; }
    }
    assert Lower(p) == p;
    DashedSafe(p, false);
    assert p[0] == p[..5][0] == 'p';
    assert TrimDashesEnd(p) == p;
    assert TrimDashesStart(p) == p;
  }

  function Tail(attempt: nat): string { if attempt > 1 then "-a" + Decimal(attempt) else "" }

  function WholeName(p: string, h: string, position: nat, attempt: nat): string
    requires |h| >= 19
  {
    p + ("-" + h[7..19] + "-d") + Decimal(position) + Tail(attempt)
  }

  lemma LimitIsPower()
    ensures Pow10(22) == ATTEMPT_LIMIT
  {
    assert Pow10(6) == 1_000_000;
    assert Pow10(12) == 1_000_000_000_000;
    assert Pow10(18) == 1_000_000_000_000_000_000;
  }

  lemma WholeNameLength(p: string, h: string, position: nat, attempt: nat)
    requires |p| == 21 && |h| >= 19 && position < 1000 && attempt < ATTEMPT_LIMIT
    ensures |WholeName(p, h, position, attempt)| <= 63
    ensures IsDigit(WholeName(p, h, position, attempt)[|WholeName(p, h, position, attempt)| - 1])
  {
    LimitIsPower();
    assert Pow10(3) == 1000;
    DecimalLength(position, 3);
    DecimalLength(attempt, 22);
  }

  lemma Regroup(a: string, h: string, d: string, t: string)
    ensures a + ("-" + h + "-d") + d + t == a + "-" + h + ("-d" + d + t)
  {
  }

  lemma ShortHashOfDigest(h: string)
    requires Digest(h)
    ensures ShortHash(h) == h[7..19]
  {
    assert h[7..][..12] == h[7..19];
  }

  /** Nothing is cut off: positions have at most three digits and attempts at most 22. */
  lemma NameIsWhole(p: string, h: string, position: nat, attempt: nat)
    requires GatewayPlanId(p) && Digest(h) && position < 1000 && attempt < ATTEMPT_LIMIT
    ensures WorkloadName(p, h, Some(position), attempt) == WholeName(p, h, position, attempt)
  {
    GatewayStem(p);
    ShortHashOfDigest(h);
    WholeNameLength(p, h, position, attempt);
    Regroup(p, h[7..19], Decimal(position), Tail(attempt));
    hide Stem, ShortHash, Pow10, GatewayPlanId, Digest, Decimal;
    assert Suffix(Some(position), attempt) == "-d" + Decimal(position) + Tail(attempt);
    assert TrimDashesEnd(WholeName(p, h, position, attempt)) == WholeName(p, h, position, attempt);
  }

  /** Two numerals followed by nothing or by a dash split in the same place. */
  lemma SplitNumeral(a: string, s: string, b: string, t: string)
    requires a + s == b + t
    requires (forall i | 0 <= i < |a| :: IsDigit(a[i])) && (forall i | 0 <= i < |b| :: IsDigit(b[i]))
    requires (s == "" || s[0] == '-') && (t == "" || t[0] == '-')
    ensures a == b && s == t
  {
    var whole := a + s;
    assert forall i | 0 <= i < |whole| :: whole[i] == if i < |a| then a[i] else s[i - |a|];
    assert forall i | 0 <= i < |whole| :: whole[i] == if i < |b| then b[i] else t[i - |b|];
    assert s != "" ==> whole[|a|] == '-';
    assert t != "" ==> whole[|b|] == '-';
    assert |a| == |b|;
    assert a == (a + s)[..|a|] && b == (b + t)[..|b|];
    assert s == (a + s)[|a|..] && t == (b + t)[|b|..];
  }

  /** The parts of a name are found at fixed places. */
  lemma NameParts(p: string, h: string, k: nat, a: nat)
    requires |p| == 21 && |h| >= 19
    ensures |WholeName(p, h, k, a)| >= 36
    ensures WholeName(p, h, k, a)[..21] == p
    ensures WholeName(p, h, k, a)[36..] == Decimal(k) + Tail(a)
  {
    Parts(p, "-" + h[7..19] + "-d", Decimal(k), Tail(a));
  }

  lemma Parts(a: string, b: string, c: string, d: string)
    ensures var whole := a + b + c + d;
            whole[..|a|] == a && whole[|a| + |b|..] == c + d
  {
  }

  lemma TailsInjective(a: nat, b: nat)
    requires a >= 1 && b >= 1 && Tail(a) == Tail(b)
    ensures a == b
  {
    if a > 1 && b > 1 {
      assert Decimal(a) == Tail(a)[2..] && Decimal(b) == Tail(b)[2..];
      ParseDecimal(a);
      ParseDecimal(b);
    }
  }

  /** Names determine plan, position and attempt, whatever the approved hashes were. */
  lemma NamesInjective(p: string, h: string, k: nat, a: nat, q: string, g: string, j: nat, b: nat)
    requires GatewayPlanId(p) && Digest(h) && k < 1000 && 1 <= a < ATTEMPT_LIMIT
    requires GatewayPlanId(q) && Digest(g) && j < 1000 && 1 <= b < ATTEMPT_LIMIT
    requires WorkloadName(p, h, Some(k), a) == WorkloadName(q, g, Some(j), b)
    ensures p == q && k == j && a == b
  {
    NameIsWhole(p, h, k, a);
    NameIsWhole(q, g, j, b);
    NameParts(p, h, k, a);
    NameParts(q, g, j, b);
    SplitNumeral(Decimal(k), Tail(a), Decimal(j), Tail(b));
    ParseDecimal(k);
    ParseDecimal(j);
    TailsInjective(a, b);
  }
}
