/** Rule-based tags, and the tags that rule out autonomy. */
module Tagging {
  import opened Wrappers

  datatype Stakes = LowStakes | MediumStakes | HighStakes
  datatype AutonomyHint = Locked | Earnable | EligibleEarly
  datatype Frequency = Daily | Weekly | Monthly | Adhoc

  datatype TaggingHints = TaggingHints(
    stakes: Option<Stakes>,
    autonomy: Option<AutonomyHint>,
    frequency: Option<Frequency>,
    requiresProfessionalVerification: bool)

  const DENY_LIST_TAGS: set<string> := {
    "money-movement", "external-send-high-stakes", "deploy", "requires-professional-verification", "never-autonomous"
  }

  predicate IsDeniedFromAutonomy(stakesTags: seq<string>) {
    exists i :: 0 <= i < |stakesTags| && stakesTags[i] in DENY_LIST_TAGS
  }

  /** Any of the five tags that rule out autonomy. */
  predicate NamesDeniedTag(tags: seq<string>) {
    || "money-movement" in tags || "external-send-high-stakes" in tags || "deploy" in tags
    || "requires-professional-verification" in tags || "never-autonomous" in tags
  }

  lemma DeniedByName(tags: seq<string>)
    ensures IsDeniedFromAutonomy(tags) <==> NamesDeniedTag(tags)
  {
    if NamesDeniedTag(tags) {
      var tag :| tag in tags && tag in DENY_LIST_TAGS;
      var i :| 0 <= i < |tags| && tags[i] == tag;
    }
  }

  /** The tags a task ends up with, whatever their order. */
  function TagSet(hints: TaggingHints, explicitTags: seq<string>): set<string> {
    (set t | t in explicitTags)
    + (if hints.stakes == Some(HighStakes) then {"high-stakes"} else {})
    + (if hints.autonomy == Some(Locked) then {"never-autonomous"} else {})
    + (if hints.autonomy == Some(EligibleEarly) then {"autonomy-eligible"} else {})
    + (if hints.frequency == Some(Daily) then {"high-volume"} else {})
    + (if hints.requiresProfessionalVerification then {"requires-professional-verification"} else {})
  }

  /** Order by code unit, the default order of strings. */
  predicate Before(a: string, b: string) {
    b != [] && (a == [] || a[0] < b[0] || (a[0] == b[0] && Before(a[1..], b[1..])))
  }

  /** The first code unit that differs decides, and a string comes after its beginnings. */
  lemma {:induction false} BeforeIff(a: string, b: string)
    ensures Before(a, b) <==> a < b || DiffersFirst(a, b)
  {
    hide DiffersFirst;
    if a != [] && b != [] && a[0] == b[0] {
      BeforeIff(a[1..], b[1..]);
      DiffersLater(a, b);
      assert a == [a[0]] + a[1..] && b == [b[0]] + b[1..];
    } else {
      DiffersAtOnce(a, b);
    }
  }

  lemma DiffersAtOnce(a: string, b: string)
    requires a == [] || b == [] || a[0] != b[0]
    ensures DiffersFirst(a, b) <==> a != [] && b != [] && a[0] < b[0]
  {
    if a != [] && b != [] && a[0] < b[0] {
      assert a[..0] == b[..0];
    }
    if DiffersFirst(a, b) {
      var k :| 0 <= k < |a| && k < |b| && a[..k] == b[..k] && a[k] < b[k];
      if k > 0 {
        assert a[..k][0] == b[..k][0];
      }
    }
  }

  predicate DiffersFirst(a: string, b: string) {
    exists k :: 0 <= k < |a| && k < |b| && a[..k] == b[..k] && a[k] < b[k]
  }

  lemma DiffersLater(a: string, b: string)
    requires a != [] && b != [] && a[0] == b[0]
    ensures DiffersFirst(a, b) <==> DiffersFirst(a[1..], b[1..])
  {
    var s, t := a[1..], b[1..];
    if DiffersFirst(s, t) {
      var k :| 0 <= k < |s| && k < |t| && s[..k] == t[..k] && s[k] < t[k];
      assert a[..k + 1] == [a[0]] + s[..k] && b[..k + 1] == [b[0]] + t[..k];
    }
    if DiffersFirst(a, b) {
      var k :| 0 <= k < |a| && k < |b| && a[..k] == b[..k] && a[k] < b[k];
      assert s[..k - 1] == a[..k][1..] && t[..k - 1] == b[..k][1..];
    }
  }

  predicate Sorted(tags: seq<string>) {
    forall i, j :: 0 <= i < j < |tags| ==> Before(tags[i], tags[j])
  }

  lemma {:induction false} BeforeIsTransitive(a: string, b: string, c: string)
    requires Before(a, b) && Before(b, c)
    ensures Before(a, c)
  {
    if a != [] && a[0] == b[0] == c[0] {
      BeforeIsTransitive(a[1..], b[1..], c[1..]);
    }
  }

  lemma {:induction false} BeforeIsTotal(a: string, b: string)
    ensures a == b || Before(a, b) || Before(b, a)
  {
    if a != [] && b != [] && a[0] == b[0] {
      BeforeIsTotal(a[1..], b[1..]);
      assert a == [a[0]] + a[1..] && b == [b[0]] + b[1..];
    }
  }

  /** Puts a new tag in its place. */
  method Insert(tags: seq<string>, tag: string) returns (r: seq<string>)
    requires Sorted(tags) && tag !in tags
    ensures Sorted(r) && multiset(r) == multiset(tags) + multiset{tag}
  {
    hide Before;
    var i := 0;
    while i < |tags| && Before(tags[i], tag)
      invariant i <= |tags|
      invariant forall j :: 0 <= j < i ==> Before(tags[j], tag)
    {
      i := i + 1;
    }
    r := tags[..i] + [tag] + tags[i..];
    assert tags == tags[..i] + tags[i..];
    if i < |tags| {
      BeforeIsTotal(tags[i], tag);
      forall j | i < j < |tags|
        ensures Before(tag, tags[j])
      {
        BeforeIsTransitive(tag, tags[i], tags[j]);
      }
    }
  }

  /** Exactly the tags of the rules and the caller, once each, in order. */
  method DeriveTags(hints: TaggingHints, explicitTags: seq<string>) returns (sorted: seq<string>)
    ensures Sorted(sorted)
    ensures multiset(sorted) == multiset(TagSet(hints, explicitTags))
  {
    var tags: set<string> := {};
    for i := 0 to |explicitTags|
      invariant tags == set t | t in explicitTags[..i]
    {
      tags := tags + {explicitTags[i]};
    }
    assert explicitTags[..|explicitTags|] == explicitTags;
    if hints.stakes == Some(HighStakes) { tags := tags + {"high-stakes"}; }
    if hints.autonomy == Some(Locked) { tags := tags + {"never-autonomous"}; }
    if hints.autonomy == Some(EligibleEarly) { tags := tags + {"autonomy-eligible"}; }
    if hints.frequency == Some(Daily) { tags := tags + {"high-volume"}; }
    if hints.requiresProfessionalVerification { tags := tags + {"requires-professional-verification"}; }
    assert tags == TagSet(hints, explicitTags);
    sorted := SortTags(tags);
  }

  method SortTags(tags: set<string>) returns (sorted: seq<string>)
    ensures Sorted(sorted) && multiset(sorted) == multiset(tags)
  {
    hide Before;
    var rest := tags;
    sorted := [];
    while rest != {}
      invariant rest <= tags
      invariant Sorted(sorted) && multiset(sorted) == multiset(tags - rest)
      decreases |rest|
    {
      var tag :| tag in rest;
      assert tag !in multiset(sorted);
      sorted := Insert(sorted, tag);
      assert multiset(tags - (rest - {tag})) == multiset(tags - rest) + multiset{tag};
      rest := rest - {tag};
    }
    assert tags - rest == tags;
  }

  /** Locked and professionally verified work is denied autonomy whatever else is on it. */
  lemma LockedWorkIsDenied(hints: TaggingHints, explicitTags: seq<string>, tags: seq<string>)
    requires multiset(tags) == multiset(TagSet(hints, explicitTags))
    ensures IsDeniedFromAutonomy(tags) <==>
            || hints.autonomy == Some(Locked) || hints.requiresProfessionalVerification
            || IsDeniedFromAutonomy(explicitTags)
  {
    hide TagSet, IsDeniedFromAutonomy;
    DeniedByMembers(tags, TagSet(hints, explicitTags));
    DeniedByMembers(explicitTags, set t | t in explicitTags);
    DeniedRules(hints, explicitTags);
  }

  /** Which tags a task carries: those its caller gave, and the five the rules know. */
  lemma TagsInFull(hints: TaggingHints, explicitTags: seq<string>, tags: seq<string>, tag: string)
    requires multiset(tags) == multiset(TagSet(hints, explicitTags))
    ensures tag in tags <==>
            || tag in explicitTags
            || (tag == "high-stakes" && hints.stakes == Some(HighStakes))
            || (tag == "never-autonomous" && hints.autonomy == Some(Locked))
            || (tag == "autonomy-eligible" && hints.autonomy == Some(EligibleEarly))
            || (tag == "high-volume" && hints.frequency == Some(Daily))
            || (tag == "requires-professional-verification" && hints.requiresProfessionalVerification)
    ensures multiset(tags)[tag] <= 1
  {
    hide TagSet;
    OnceEach(tags, TagSet(hints, explicitTags), tag);
    TagSetHolds(hints, explicitTags, tag);
  }

  lemma OnceEach(tags: seq<string>, members: set<string>, tag: string)
    requires multiset(tags) == multiset(members)
    ensures tag in tags <==> tag in members
    ensures multiset(tags)[tag] <= 1
  {
    assert tag in tags <==> tag in multiset(tags);
  }

  lemma TagSetHolds(hints: TaggingHints, explicitTags: seq<string>, tag: string)
    ensures tag in TagSet(hints, explicitTags) <==>
            || tag in explicitTags
            || (tag == "high-stakes" && hints.stakes == Some(HighStakes))
            || (tag == "never-autonomous" && hints.autonomy == Some(Locked))
            || (tag == "autonomy-eligible" && hints.autonomy == Some(EligibleEarly))
            || (tag == "high-volume" && hints.frequency == Some(Daily))
            || (tag == "requires-professional-verification" && hints.requiresProfessionalVerification)
  {
  }

  lemma DeniedByMembers(tags: seq<string>, members: set<string>)
    requires forall t :: t in members <==> t in multiset(tags)
    ensures IsDeniedFromAutonomy(tags) <==> members * DENY_LIST_TAGS != {}
  {
    if i :| 0 <= i < |tags| && tags[i] in DENY_LIST_TAGS {
      assert tags[i] in multiset(tags);
      assert tags[i] in members * DENY_LIST_TAGS;
    }
    if t :| t in members * DENY_LIST_TAGS {
      assert t in multiset(tags);
      assert t in tags;
    }
  }

  lemma DeniedRules(hints: TaggingHints, explicitTags: seq<string>)
    ensures TagSet(hints, explicitTags) * DENY_LIST_TAGS != {} <==>
            || hints.autonomy == Some(Locked) || hints.requiresProfessionalVerification
            || (set t | t in explicitTags) * DENY_LIST_TAGS != {}
  {
    var given := set t | t in explicitTags;
    var rules := TagSet(hints, explicitTags);
    if hints.autonomy == Some(Locked) {
      assert "never-autonomous" in rules * DENY_LIST_TAGS;
    } else if hints.requiresProfessionalVerification {
      assert "requires-professional-verification" in rules * DENY_LIST_TAGS;
    } else {
      NotDeniedTags();
      assert rules * DENY_LIST_TAGS == given * DENY_LIST_TAGS;
    }
  }

  lemma NotDeniedTags()
    ensures "high-stakes" !in DENY_LIST_TAGS && "autonomy-eligible" !in DENY_LIST_TAGS
            && "high-volume" !in DENY_LIST_TAGS
  {
    assert |"high-stakes"| == 11;
    assert |"autonomy-eligible"| == 17;
    assert |"high-volume"| == 11;
  }
}
