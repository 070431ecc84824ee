/**
 * Region extraction from a Lambda function ARN: the search for
 * `arn:aws:lambda:([^:]+):` written as an explicit scan, falling back to
 * `us-east-1` when the pattern occurs nowhere.
 */
module Region {
  import opened Wrappers

  const ArnPrefix: string := "arn:aws:lambda:"
  const DefaultRegion: string := "us-east-1"

  /**
   * The pattern matches with its literal prefix at position `p` and its
   * closing colon at position `e`: the group `s[p + |ArnPrefix|..e]` is a
   * non-empty run of non-colon characters.
   */
  ghost predicate RegexMatch(s: string, p: nat, e: nat) {
    && p + |ArnPrefix| < e < |s|
    && s[p..p + |ArnPrefix|] == ArnPrefix
    && s[e] == ':'
    && forall i :: p + |ArnPrefix| <= i < e ==> s[i] != ':'
  }

  /** Some match starts at `p`. */
  ghost predicate MatchesAt(s: string, p: nat) {
    exists e :: RegexMatch(s, p, e)
  }

  /** The match `re.search` reports: no match starts earlier. */
  ghost predicate LeftmostMatch(s: string, p: nat, e: nat) {
    RegexMatch(s, p, e) && forall q: nat :: q < p ==> !MatchesAt(s, q)
  }

  /** The first colon at or after `k`, or `|s|` if there is none. */
  function ColonFrom(s: string, k: nat): (e: nat)
    requires k <= |s|
    ensures k <= e <= |s|
    ensures e < |s| ==> s[e] == ':'
    ensures forall i :: k <= i < e ==> s[i] != ':'
    decreases |s| - k
  {
    if k == |s| || s[k] == ':' then k else ColonFrom(s, k + 1)
  }

  /** A match starting at `p` closes at the first colon after the prefix. */
  lemma MatchClosesAtFirstColon(s: string, p: nat, e: nat)
    requires RegexMatch(s, p, e)
    ensures e == ColonFrom(s, p + |ArnPrefix|)
  {
  }

  /**
   * Scans start positions from `from` onwards, as `re.search` does, and
   * returns the prefix position and closing colon of the first match.
   */
  function FindMatch(s: string, from: nat): (m: Option<(nat, nat)>)
    ensures m.Some? ==> from <= m.value.0 && RegexMatch(s, m.value.0, m.value.1)
    ensures m.Some? ==> forall q: nat :: from <= q < m.value.0 ==> !MatchesAt(s, q)
    ensures m.None? ==> forall q: nat :: from <= q ==> !MatchesAt(s, q)
    decreases |s| - from
  {
    if |s| <= from + |ArnPrefix| then
      assert forall q: nat :: from <= q ==> !MatchesAt(s, q) by {
        forall q: nat, e: nat | from <= q
          ensures !RegexMatch(s, q, e)
        {
        }
      }
      None
    else
      var e := ColonFrom(s, from + |ArnPrefix|);
      if s[from..from + |ArnPrefix|] == ArnPrefix && from + |ArnPrefix| < e < |s| then
        Some((from, e))
      else
        assert !MatchesAt(s, from) by {
          forall e': nat | RegexMatch(s, from, e')
            ensures false
          {
            MatchClosesAtFirstColon(s, from, e');
          }
        }
        FindMatch(s, from + 1)
  }

  /**
   * `extract_region_from_arn`: the group of the leftmost match, or the
   * default region when the pattern does not occur. The result is never
   * empty and never contains a colon.
   */
  function ExtractRegion(arn: string): (region: string)
    ensures |region| > 0 && ':' !in region
    ensures (forall p: nat :: !MatchesAt(arn, p)) ==> region == DefaultRegion
    ensures (exists p: nat :: MatchesAt(arn, p)) ==>
              exists p: nat, e: nat :: LeftmostMatch(arn, p, e) && region == arn[p + |ArnPrefix|..e]
    ensures forall p: nat, e: nat :: LeftmostMatch(arn, p, e) ==> region == arn[p + |ArnPrefix|..e]
  {
    match FindMatch(arn, 0)
    case None =>
      assert forall p: nat, e: nat :: !LeftmostMatch(arn, p, e) by {
        forall p: nat, e: nat | LeftmostMatch(arn, p, e)
          ensures false
        {
          assert MatchesAt(arn, p);
        }
      }
      DefaultRegion
    case Some((p, e)) =>
      assert MatchesAt(arn, p);
      LeftmostIsUnique(arn, p, e);
      arn[p + |ArnPrefix|..e]
  }

  /** Only one match can be the leftmost one. */
  lemma LeftmostIsUnique(s: string, p: nat, e: nat)
    requires LeftmostMatch(s, p, e)
    ensures forall p': nat, e': nat :: LeftmostMatch(s, p', e') ==> p' == p && e' == e
  {
    forall p': nat, e': nat | LeftmostMatch(s, p', e')
      ensures p' == p && e' == e
    {
      if p' < p {
        assert MatchesAt(s, p');
      } else if p < p' {
        assert MatchesAt(s, p);
      }
      MatchClosesAtFirstColon(s, p, e);
      MatchClosesAtFirstColon(s, p', e');
    }
  }

  /** A typical function ARN yields its region segment. */
  lemma ExtractsRegionOfFunctionArn()
    ensures ExtractRegion("arn:aws:lambda:eu-west-1:123456789012:function:foo") == "eu-west-1"
  {
    var s := "arn:aws:lambda:eu-west-1:123456789012:function:foo";
    var region := "eu-west-1";
    var rest := ":123456789012:function:foo";
    assert s == ArnPrefix + region + rest;
    assert s[..15] == ArnPrefix;
    assert s[15..24] == region;
    assert s[24] == ':';
    assert LeftmostMatch(s, 0, 24);
  }

  /** A string without the pattern yields the default region. */
  lemma DefaultsWithoutArn()
    ensures ExtractRegion("arn:aws:s3:::bucket") == DefaultRegion
  {
  }
}
